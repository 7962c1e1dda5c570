/** `SyncManager`: one poll of the change feed, as the code runs it when it is
    not interrupted, proved to be a run of `SyncProtocol` steps. */
module SyncManager {
  import opened Basics
  import opened ContentTiers
  import opened Names
  import opened Client
  import opened SyncProtocol
  import C = Client
  import Db = DbManager
  import Obj = ObjectManager

  /** The changes of the feed from a position on, applied in order. */
  function ApplyFrom(c: Client, feed: seq<Change>, pos: nat): Client
    requires pos <= |feed|
    decreases |feed| - pos
  {
    if pos == |feed| then c else ApplyFrom(C.ApplyChange(c, feed[pos]), feed, pos + 1)
  }

  /** What the server answers: everything after the token, a refusal of the
      token, or some other error, which may hit the first token as well. */
  datatype Answer = Changes | TokenInvalid(renewed: bool) | OtherError(noStartToken: bool)

  /** After a removal nothing but cached listings and names knows the file. */
  ghost predicate FileGone(c: Client, d: Client, id: Id) {
    && d.names == c.names.(metadata := c.names.metadata - {id}) && d.rows == c.rows - {id}
    && d.tiers == c.tiers.(moka := c.tiers.moka - {id}, blobs := c.tiers.blobs - {id},
                           disk := c.tiers.disk - {CacheKey(c, id), id})
  }

  /** After any other change the file's metadata is the change's, its row is
      clean and names the change's checksum, and reads go there, whatever was
      known before.  Its content is dropped exactly when two checksums
      differ. */
  ghost predicate FileUpdated(c: Client, d: Client, id: Id, info: FileInfo) {
    var differs := id in c.rows && c.rows[id].md5.Some? && info.md5.Some? && c.rows[id].md5 != info.md5;
    && d.names.metadata == (c.names.metadata - {id})[info.id := info]
    && d.names.dirCache == c.names.dirCache && d.names.nameIndex == c.names.nameIndex
    && id in d.names.idToIno && id in d.rows && d.rows == c.rows[id := d.rows[id]]
    && d.rows[id] == Row(if id in c.rows && !differs then c.rows[id].inode else d.names.idToIno[id],
                         "", "", info.md5, false)
    && (!(PENDING <= id) && info.id == id ==>
          Read(d, id) == Lookup(d.tiers, if info.md5.Some? && info.md5.value != "" then info.md5.value else id))
    && d.tiers == if !differs then c.tiers
                  else c.tiers.(moka := c.tiers.moka - {id}, blobs := c.tiers.blobs - {id},
                                disk := c.tiers.disk - {CacheKey(c, id), id})
  }

  lemma ChangeUpdates(c: Client, ch: Change)
    ensures ch.removed || ch.file.None? ==> FileGone(c, C.ApplyChange(c, ch), ch.id)
    ensures !ch.removed && ch.file.Some? ==> FileUpdated(c, C.ApplyChange(c, ch), ch.id, ch.file.value)
  {
  }

  /** A removal leaves the file wherever it is listed or found by name: it
      stays visible exactly where it was. */
  lemma RemovalStaysListed(c: Client, ch: Change, parent: Id)
    requires ch.removed || ch.file.None?
    ensures var d := C.ApplyChange(c, ch);
            && ch.id !in d.names.metadata && ch.id !in d.rows
            && (HasId(Cached(d.names, parent), ch.id) <==> HasId(Cached(c.names, parent), ch.id))
            && forall k :: k in d.names.nameIndex && d.names.nameIndex[k] == ch.id <==>
                           k in c.names.nameIndex && c.names.nameIndex[k] == ch.id
  {
  }

  class SyncManager {
    const db: Db.DbManager
    const obj: Obj.ObjectManager

    constructor (db: Db.DbManager, obj: Obj.ObjectManager)
      requires obj.db == db
      ensures this.db == db && this.obj == obj
    {
      this.db, this.obj := db, obj;
    }

    /** Evicting a file that is gone, or whose content has changed. */
    method EvictContent(id: Id)
      requires obj.db == db
      modifies obj`moka, obj`disk, db`rows, db`blobs
      ensures obj.View() == DropEntry(old(obj.View()), id)
    {
      ghost var c := obj.View();
      obj.moka := obj.moka - {id};
      assert CacheKey(obj.View(), id) == CacheKey(c, id);
      obj.EvictDiskContent(id);
      db.RemoveEntry(id);
    }

    method ApplyChange(change: Change)
      requires obj.db == db
      modifies obj, db`rows, db`blobs
      ensures obj.View() == C.ApplyChange(old(obj.View()), change)
      ensures change.removed || change.file.None? ==> FileGone(old(obj.View()), obj.View(), change.id)
      ensures !change.removed && change.file.Some? ==>
                FileUpdated(old(obj.View()), obj.View(), change.id, change.file.value)
    {
      ghost var c := obj.View();
      ChangeUpdates(c, change);
      var id := change.id;
      if change.removed || change.file.None? {
        EvictContent(id);
        obj.EvictMetadata(id);
        return;
      }
      var info := change.file.value;
      var row := db.GetMetadata(id);
      if row.Some? && row.value.md5.Some? && info.md5.Some? && row.value.md5 != info.md5 {
        EvictContent(id);
      }
      ghost var d := obj.View();
      assert d == if ContentChanged(c.rows, change) then DropEntry(c, id) else c;
      obj.EvictMetadata(id);
      obj.StoreMetadata(info);
      var ino := obj.GetOrAllocIno(id);
      db.StoreMetadata(id, ino, "", "", info.md5, false);
    }

    /** Applying everything the server sent. */
    method ApplyFetched(feed: seq<Change>, from: nat)
      requires obj.db == db && from <= |feed|
      modifies obj, db`rows, db`blobs
      ensures obj.View() == ApplyFrom(old(obj.View()), feed, from)
    {
      var changes := feed[from..];
      for i := 0 to |changes|
        invariant ApplyFrom(obj.View(), feed, from + i) == ApplyFrom(old(obj.View()), feed, from)
      {
        ApplyChange(changes[i]);
      }
    }

    /** `poll_once`: `feed` is the server's feed, `answer` what it says. */
    method PollOnce(feed: seq<Change>, answer: Answer)
      requires obj.db == db
      requires db.token.Some? ==> db.token.value <= |feed|
      modifies obj, db
      ensures old(db.token).None? && answer.Changes? ==> obj.View() == old(obj.View())
      ensures old(db.token).Some? && answer.Changes? ==>
                obj.View() == ApplyFrom(old(obj.View()), feed, old(db.token).value)
      ensures !answer.Changes? ==> obj.View() == old(obj.View())
      ensures db.token == if answer.Changes? || answer == TokenInvalid(true)
                             || (old(db.token).None? && answer != OtherError(true))
                          then Some(|feed|) else old(db.token)
    {
      var token := db.token;
      if token.None? {
        if answer == OtherError(true) {
          return;
        }
        db.SetSyncToken(|feed|);
        token := Some(|feed|);
      }
      match answer
      case TokenInvalid(renewed) =>
        if renewed {
          db.SetSyncToken(|feed|);
        }
      case OtherError(_) =>
      case Changes =>
        ApplyFetched(feed, token.value);
        db.SetSyncToken(|feed|);
    }
  }

  // ── A poll is a run ──

  function Repeat(n: nat): seq<Event> {
    if n == 0 then [] else [ApplyNext] + Repeat(n - 1)
  }

  lemma MoreSteps(s: Sync, e: Event, es: seq<Event>)
    requires Enabled(s, e) && IsRun(Apply(s, e), es)
    ensures IsRun(s, [e] + es) && Run(s, [e] + es) == Run(Apply(s, e), es)
  {
    assert ([e] + es)[1..] == es;
  }

  lemma NextStep(s: Sync)
    requires Enabled(s, ApplyNext)
    ensures Apply(s, ApplyNext).phase == Applying(s.phase.pos + 1, s.phase.end)
    ensures Apply(s, ApplyNext).feed == s.feed
    ensures Apply(s, ApplyNext).client == C.ApplyChange(s.client, s.feed[s.phase.pos])
  {
  }

  lemma {:induction false} AppliesRun(s: Sync)
    requires s.phase.Applying? && s.phase.pos <= s.phase.end == |s.feed|
    ensures IsRun(s, Repeat(s.phase.end - s.phase.pos))
    ensures Run(s, Repeat(s.phase.end - s.phase.pos)).phase == Applying(s.phase.end, s.phase.end)
    ensures Run(s, Repeat(s.phase.end - s.phase.pos)).client == ApplyFrom(s.client, s.feed, s.phase.pos)
    decreases s.phase.end - s.phase.pos
  {
    if s.phase.pos < s.phase.end {
      var t, rest := Apply(s, ApplyNext), Repeat(s.phase.end - s.phase.pos - 1);
      NextStep(s);
      AppliesRun(t);
      MoreSteps(s, ApplyNext, rest);
      assert Repeat(s.phase.end - s.phase.pos) == [ApplyNext] + rest;
    }
  }

  /** Main result: a poll that the server answers with changes is a run of the
      protocol that ends in `Persist`, so `AtLeastOnce` and `Converges` hold
      of the code. */
  lemma PollIsRun(s: Sync)
    requires s.phase.Idle? && s.token.Some? && s.token.value <= |s.feed|
    ensures var es := [Fetch] + Repeat(|s.feed| - s.token.value);
            && IsRun(s, es) && Enabled(Run(s, es), Persist)
            && Run(s, es).client == ApplyFrom(s.client, s.feed, s.token.value)
            && Apply(Run(s, es), Persist).token == Some(|s.feed|)
  {
    var t := Apply(s, Fetch);
    AppliesRun(t);
    MoreSteps(s, Fetch, Repeat(|s.feed| - s.token.value));
  }
}
