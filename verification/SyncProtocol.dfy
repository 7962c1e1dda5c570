/** The change-feed watcher as a step machine.  The feed only grows; a token is
    a position in it; the client may crash before, between and after the
    application of changes, and other parts of the client run in between. */
module SyncProtocol {
  import opened Basics
  import opened Names
  import opened Client

  datatype Phase = Idle | Applying(pos: nat, end: nat)

  /** The machine and its history: `start` is where the token was last taken
      from the server, `base` the rows at that moment, `reached` how far changes have been
      applied since, `applied` the positions applied, and `own` the ids
      whose rows other parts of the client have changed since. */
  datatype Sync = Sync(
    client: Client,
    feed: seq<Change>,
    token: Option<nat>,
    phase: Phase,
    start: nat,
    base: map<Id, Row>,
    reached: nat,
    applied: set<nat>,
    own: set<Id>)

  datatype Event =
    | FeedGrows(change: Change)
    | Bootstrap
    | Fetch
    | ApplyNext
    | Persist
    | Expire
    | Crash(rowOrder: seq<(Id, nat)>)
    | Elsewhere(client: Client)

  /** What a row says, apart from its inode. */
  datatype Content = Content(parent: Id, name: string, md5: Option<string>, dirty: bool)

  function RowContent(rows: map<Id, Row>, id: Id): Option<Content> {
    if id in rows then Some(Content(rows[id].parent, rows[id].name, rows[id].md5, rows[id].dirty)) else None
  }

  function Changed(before: map<Id, Row>, after: map<Id, Row>): set<Id> {
    set id | id in before.Keys + after.Keys && RowContent(before, id) != RowContent(after, id)
  }

  ghost predicate Enabled(s: Sync, e: Event) {
    match e
    case FeedGrows(_) => true
    case Bootstrap => s.token.None? && s.phase.Idle?
    case Fetch => s.token.Some? && s.phase.Idle?
    case ApplyNext => s.phase.Applying? && s.phase.pos < s.phase.end <= |s.feed|
    case Persist => s.phase.Applying? && s.phase.pos == s.phase.end
    case Expire => s.token.Some? && s.phase.Idle?
    case Crash(order) => Enumerates(order, s.client.rows)
    case Elsewhere(_) => true
  }

  /** Taking a fresh token: the history starts over. */
  function FreshToken(s: Sync): Sync {
    s.(token := Some(|s.feed|), start := |s.feed|, base := s.client.rows, reached := |s.feed|, own := {})
  }

  ghost function Apply(s: Sync, e: Event): Sync
    requires Enabled(s, e)
  {
    match e
    case FeedGrows(ch) => s.(feed := s.feed + [ch])
    case Bootstrap => FreshToken(s)
    case Fetch => s.(phase := Applying(s.token.value, |s.feed|))
    case ApplyNext =>
      var pos := s.phase.pos;
      s.(client := ApplyChange(s.client, s.feed[pos]), phase := Applying(pos + 1, s.phase.end),
         reached := if s.reached < pos + 1 then pos + 1 else s.reached, applied := s.applied + {pos})
    case Persist => s.(token := Some(s.phase.end), phase := Idle)
    case Expire => FreshToken(s)
    case Crash(order) => s.(client := Restart(s.client, order), phase := Idle)
    case Elsewhere(c) => s.(client := c, own := s.own + Changed(s.client.rows, c.rows))
  }

  ghost predicate IsRun(s: Sync, es: seq<Event>)
    decreases |es|
  {
    es == [] || (Enabled(s, es[0]) && IsRun(Apply(s, es[0]), es[1..]))
  }

  ghost function Run(s: Sync, es: seq<Event>): Sync
    requires IsRun(s, es)
    decreases |es|
  {
    if es == [] then s else Run(Apply(s, es[0]), es[1..])
  }

  function Start(c: Client, feed: seq<Change>): Sync { Sync(c, feed, None, Idle, 0, c.rows, 0, {}, {}) }

  // ── What a row should say ──

  /** What one change makes of its file's row, whatever it said before. */
  function Verdict(ch: Change): Option<Content> {
    if ch.removed || ch.file.None? then None else Some(Content("", "", ch.file.value.md5, false))
  }

  /** The row of `id` after the last change to it in feed[from..until], or its old
      content if there is none. */
  function Expected(initial: Option<Content>, feed: seq<Change>, from: nat, until: nat, id: Id): Option<Content>
    requires until <= |feed|
    decreases until
  {
    if until <= from then initial
    else if feed[until - 1].id == id then Verdict(feed[until - 1])
    else Expected(initial, feed, from, until - 1, id)
  }

  /** Applying a change sets its file's row to the verdict and leaves the rest. */
  lemma ChangeSetsRow(c: Client, ch: Change, id: Id)
    ensures RowContent(ApplyChange(c, ch).rows, id) == if id == ch.id then Verdict(ch) else RowContent(c.rows, id)
  {
  }

  // ── Invariant ──

  ghost predicate UpToDate(s: Sync, id: Id, j: nat) {
    && s.start <= j <= |s.feed|
    && RowContent(s.client.rows, id) == Expected(RowContent(s.base, id), s.feed, s.start, j, id)
  }

  /** Where the next change would be applied. */
  function Position(s: Sync): nat
    requires s.token.Some?
  {
    if s.phase.Idle? then s.token.value else s.phase.pos
  }

  ghost predicate Inv(s: Sync) {
    if s.token.None? then s.phase.Idle? && s.applied == {}
    else
      && s.start <= s.token.value <= Position(s) <= s.reached <= |s.feed|
      && (s.phase.Applying? ==> s.reached <= s.phase.end <= |s.feed|)
      && (forall i :: i in s.applied ==> i < |s.feed|)
      && (forall i :: s.start <= i ==> (i in s.applied <==> i < s.reached))
      && (forall id :: id !in s.own ==> exists j :: Position(s) <= j <= s.reached && UpToDate(s, id, j))
  }

  lemma {:induction false} ExpectedGrows(initial: Option<Content>, feed: seq<Change>, ch: Change, from: nat,
                                         until: nat, id: Id)
    requires until <= |feed|
    ensures Expected(initial, feed + [ch], from, until, id) == Expected(initial, feed, from, until, id)
    decreases until
  {
    if from < until && feed[until - 1].id != id {
      ExpectedGrows(initial, feed, ch, from, until - 1, id);
    }
  }

  lemma ApplyNextUpToDate(s: Sync, id: Id, j: nat) returns (k: nat)
    requires Inv(s) && s.token.Some? && Enabled(s, ApplyNext)
    requires Position(s) <= j <= s.reached && UpToDate(s, id, j)
    ensures var r := Apply(s, ApplyNext); Position(r) <= k <= r.reached && UpToDate(r, id, k)
  {
    var ch := s.feed[s.phase.pos];
    ChangeSetsRow(s.client, ch, id);
    k := if ch.id == id || j == s.phase.pos then s.phase.pos + 1 else j;
  }

  lemma SameRowsUpToDate(s: Sync, r: Sync)
    requires Inv(s) && s.token.Some? && r.token.Some?
    requires r.feed == s.feed && r.start == s.start && r.base == s.base && s.own <= r.own
    requires forall id :: id !in r.own ==> RowContent(r.client.rows, id) == RowContent(s.client.rows, id)
    ensures forall id :: id !in r.own ==> exists j :: Position(s) <= j <= s.reached && UpToDate(r, id, j)
  {
    forall id | id !in r.own ensures exists j :: Position(s) <= j <= s.reached && UpToDate(r, id, j) {
      var j :| Position(s) <= j <= s.reached && UpToDate(s, id, j);
      assert UpToDate(r, id, j);
    }
  }

  lemma FeedGrowsStep(s: Sync, ch: Change)
    requires Inv(s)
    ensures Inv(Apply(s, FeedGrows(ch)))
  {
    var r := Apply(s, FeedGrows(ch));
    if s.token.Some? {
      forall id | id !in r.own ensures exists j :: Position(r) <= j <= r.reached && UpToDate(r, id, j) {
        var j :| Position(s) <= j <= s.reached && UpToDate(s, id, j);
        ExpectedGrows(RowContent(s.base, id), s.feed, ch, s.start, j, id);
        assert UpToDate(r, id, j);
      }
    }
  }

  lemma ApplyNextStep(s: Sync)
    requires Inv(s) && Enabled(s, ApplyNext)
    ensures Inv(Apply(s, ApplyNext))
  {
    var r := Apply(s, ApplyNext);
    forall id | id !in r.own ensures exists j :: Position(r) <= j <= r.reached && UpToDate(r, id, j) {
      var j :| Position(s) <= j <= s.reached && UpToDate(s, id, j);
      var k := ApplyNextUpToDate(s, id, j);
    }
  }

  lemma FreshTokenStep(s: Sync)
    requires Inv(s) && s.phase.Idle?
    ensures Inv(FreshToken(s))
  {
    var r := FreshToken(s);
    forall id | id !in r.own ensures exists j :: |s.feed| <= j <= r.reached && UpToDate(r, id, j) {
      assert UpToDate(r, id, |s.feed|);
    }
  }

  lemma ElsewhereStep(s: Sync, c: Client)
    requires Inv(s)
    ensures Inv(Apply(s, Elsewhere(c)))
  {
    var r := Apply(s, Elsewhere(c));
    if s.token.Some? {
      SameRowsUpToDate(s, r);
    }
  }

  lemma QuietStep(s: Sync, e: Event)
    requires Inv(s) && Enabled(s, e) && (e.Fetch? || e.Persist? || e.Crash?)
    ensures Inv(Apply(s, e))
  {
    var r := Apply(s, e);
    if s.token.Some? {
      SameRowsUpToDate(s, r);
    }
  }

  lemma Step(s: Sync, e: Event)
    requires Inv(s) && Enabled(s, e)
    ensures Inv(Apply(s, e))
  {
    if e.FeedGrows? {
      FeedGrowsStep(s, e.change);
    } else if e.ApplyNext? {
      ApplyNextStep(s);
    } else if e.Bootstrap? || e.Expire? {
      FreshTokenStep(s);
    } else if e.Elsewhere? {
      ElsewhereStep(s, e.client);
    } else {
      QuietStep(s, e);
    }
  }

  lemma {:induction false} InvRun(s: Sync, es: seq<Event>)
    requires Inv(s) && IsRun(s, es)
    ensures Inv(Run(s, es))
    decreases |es|
  {
    if es != [] {
      Step(s, es[0]);
      InvRun(Apply(s, es[0]), es[1..]);
    }
  }

  /** Main result: whatever crashes, every change between the last fresh token
      and the persisted one has been applied. */
  lemma AtLeastOnce(c: Client, feed: seq<Change>, es: seq<Event>)
    requires IsRun(Start(c, feed), es)
    ensures var s := Run(Start(c, feed), es);
            s.token.Some? ==> forall i :: s.start <= i < s.token.value ==> i in s.applied
  {
    InvRun(Start(c, feed), es);
  }

  /** Main result: whenever a poll completes, however often changes had to be
      applied again after crashes, the row of every file that nothing else has
      touched says what the last change before the token made it say. */
  lemma Converges(c: Client, feed: seq<Change>, es: seq<Event>, id: Id)
    requires IsRun(Start(c, feed), es)
    requires var s := Run(Start(c, feed), es); Enabled(s, Persist) && id !in s.own
    ensures var s := Run(Start(c, feed), es);
            && s.token.Some? && s.start <= s.phase.end <= |s.feed|
            && RowContent(s.client.rows, id)
               == Expected(RowContent(s.base, id), s.feed, s.start, s.phase.end, id)
            && Apply(s, Persist).token == Some(s.phase.end)
  {
    var s := Run(Start(c, feed), es);
    InvRun(Start(c, feed), es);
    var j :| Position(s) <= j <= s.reached && UpToDate(s, id, j);
    assert j == s.phase.end;
  }

  /** Between polls a row may be ahead of the token, never behind it. */
  lemma NeverBehind(c: Client, feed: seq<Change>, es: seq<Event>, id: Id)
    requires IsRun(Start(c, feed), es)
    requires var s := Run(Start(c, feed), es); s.token.Some? && id !in s.own
    ensures var s := Run(Start(c, feed), es);
            exists j :: s.token.value <= j <= s.reached && UpToDate(s, id, j)
  {
    InvRun(Start(c, feed), es);
  }

  /** The changes applied since the last fresh token are exactly those up to
      the furthest position reached, whatever crashes. */
  lemma AppliedExactly(c: Client, feed: seq<Change>, es: seq<Event>)
    requires IsRun(Start(c, feed), es)
    ensures var s := Run(Start(c, feed), es);
            s.token.Some? ==> s.token.value <= s.reached <= |s.feed|
                              && forall i :: s.start <= i ==> (i in s.applied <==> i < s.reached)
  {
    InvRun(Start(c, feed), es);
  }

  /** An expired token is replaced by the current end of the feed.  That keeps
      the promise of `AtLeastOnce` for the old starting point exactly when the
      client had reached that end. */
  lemma ExpiryKeepsPromise(c: Client, feed: seq<Change>, es: seq<Event>)
    requires IsRun(Start(c, feed), es) && Enabled(Run(Start(c, feed), es), Expire)
    ensures var s := Run(Start(c, feed), es);
            var r := Apply(s, Expire);
            (forall i :: s.start <= i < r.token.value ==> i in r.applied) <==> s.reached == |s.feed|
  {
    var s := Run(Start(c, feed), es);
    var r := Apply(s, Expire);
    InvRun(Start(c, feed), es);
    assert r.applied == s.applied && r.token.value == |s.feed|;
    if s.reached < |s.feed| {
      assert s.start <= s.reached && s.reached !in r.applied;
    }
  }

  /** Such a case: one change arrives, and the token expires before the poll
      that would have applied it. */
  lemma ExpiryLosesChange(c: Client, ch: Change)
    ensures var es := [Bootstrap, FeedGrows(ch), Expire];
            && IsRun(Start(c, []), es)
            && Run(Start(c, []), es).token == Some(1) && 0 !in Run(Start(c, []), es).applied
  {
    var es := [Bootstrap, FeedGrows(ch), Expire];
    assert es[1..] == [FeedGrows(ch), Expire] && es[1..][1..] == [Expire] && es[1..][1..][1..] == [];
    var s1 := Apply(Start(c, []), Bootstrap);
    var s2 := Apply(s1, FeedGrows(ch));
    assert IsRun(s2, [Expire]) && Run(s2, [Expire]) == Apply(s2, Expire);
    assert IsRun(s1, es[1..]) && Run(s1, es[1..]) == Apply(s2, Expire);
  }
}
