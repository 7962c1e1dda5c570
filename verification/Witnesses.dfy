/** Runs that reach the states in which the code falls short: for each exact
    condition proved elsewhere, an input on which it fails. */
module Witnesses {
  import opened Basics
  import opened ContentTiers
  import opened Names
  import opened Client
  import opened ClientRun
  import opened Durability
  import N = Names
  import I = Inodes
  import L = Listings

  const FILE: Id := "f"
  const NEW: Id := "n"

  /** Drive holds one empty file, and nothing is kept in RAM or BLOBs but
      empty content. */
  function Home(): World { FirstStart(0, map[FILE := []]) }

  function Info(id: Id): FileInfo { FileInfo(id, "name", "text/plain", 0, None, false) }

  // ── An empty copy in front of a disk file ──

  function Truncated(): seq<Event> { [ReleaseHandle(FILE, [1], "", "")] + [ReleaseHandle(FILE, [], "", "")] }

  lemma LargeStep()
    ensures Legal(Home(), ReleaseHandle(FILE, [1], "", ""))
    ensures var w := Apply(Home(), ReleaseHandle(FILE, [1], "", ""));
            && w.up.Idle? && w.issued == {FILE} && w.client.tiers.ramMax == 0
            && Find(w.client.tiers.disk, FILE) == Some([1])
  {
  }

  lemma EmptyStep(w: World)
    requires w.up.Idle? && w.issued == {FILE} && w.client.tiers.ramMax == 0
    requires Find(w.client.tiers.disk, FILE) == Some([1])
    ensures Legal(w, ReleaseHandle(FILE, [], "", ""))
    ensures var r := Apply(w, ReleaseHandle(FILE, [], "", ""));
            && r.up.Idle? && Dirty(r.client.rows, FILE)
            && StaleOverride(r.client, FILE) && Payload(r.client, FILE) == Some([1])
  {
  }

  /** Truncating a file after a large write leaves the disk file behind, and
      the uploader sends that instead of nothing. */
  lemma StaleUpload()
    ensures IsRun(Home(), Truncated() + [UploadLoad(FILE)])
    ensures StaleOverride(Run(Home(), Truncated()).client, FILE)
    ensures Run(Home(), Truncated() + [UploadLoad(FILE)]).up == Loaded(FILE, [1])
  {
    var large := ReleaseHandle(FILE, [1], "", "");
    LargeStep();
    OneStep(Home(), large);
    EmptyStep(Run(Home(), [large]));
    OneMore(Home(), [large], ReleaseHandle(FILE, [], "", ""));
    OneMore(Home(), Truncated(), UploadLoad(FILE));
  }

  // ── Writes that come too late ──

  /** A checksum as Drive prints it. */
  const SUM: Key := "0123456789abcdef0123456789abcdef"

  /** Drive's answer to the update of the file. */
  function Answer(): FileInfo { Info(FILE).(md5 := Some(SUM)) }

  function AskedUpdate(): seq<Event> { [ReleaseHandle(FILE, [1], "", "")] + [UploadLoad(FILE)] + [UploadAsk] }

  function SentUpdate(): seq<Event> { AskedUpdate() + [UploadSend(Answer())] }

  lemma LoadedUpdateRuns()
    ensures var es := [ReleaseHandle(FILE, [1], "", "")] + [UploadLoad(FILE)];
            && IsRun(Home(), es)
            && Run(Home(), es).up == Loaded(FILE, [1]) && Run(Home(), es).drive == map[FILE := []]
  {
    OneStep(Home(), ReleaseHandle(FILE, [1], "", ""));
    OneMore(Home(), [ReleaseHandle(FILE, [1], "", "")], UploadLoad(FILE));
  }

  lemma AskedUpdateRuns()
    ensures IsRun(Home(), AskedUpdate())
    ensures var w := Run(Home(), AskedUpdate());
            w.up.Asked? && w.up.id == FILE && w.up.content == [1] && w.drive == map[FILE := []]
  {
    LoadedUpdateRuns();
    OneMore(Home(), [ReleaseHandle(FILE, [1], "", "")] + [UploadLoad(FILE)], UploadAsk);
  }

  lemma SendUpdate(w: World)
    requires w.up.Asked? && w.up.id == FILE && w.up.content == [1] && w.drive == map[FILE := []]
    ensures Legal(w, UploadSend(Answer()))
    ensures var r := Apply(w, UploadSend(Answer()));
            && r.drive == map[FILE := [1]] && At(r, Answered)
            && r.up.id == FILE && r.up.content == [1] && r.up.info == Answer()
  {
    assert IsMd5(SUM);
  }

  lemma SentUpdateRuns()
    ensures IsRun(Home(), SentUpdate())
    ensures var w := Run(Home(), SentUpdate());
            && At(w, Answered) && w.up.id == FILE && w.up.content == [1] && w.up.info == Answer()
            && w.drive == map[FILE := [1]]
  {
    AskedUpdateRuns();
    SendUpdate(Run(Home(), AskedUpdate()));
    OneMore(Home(), AskedUpdate(), UploadSend(Answer()));
  }

  lemma FileIsFile()
    ensures FileId(FILE) && !IsPending(FILE) && IsMd5(SUM) && RealId(FILE)
  {
  }

  lemma DriveIsIssued()
    requires IsRun(Home(), SentUpdate()) && At(Run(Home(), SentUpdate()), Answered)
    requires Run(Home(), SentUpdate()).drive == map[FILE := [1]]
    ensures FILE in Run(Home(), SentUpdate()).issued
  {
    Durability.InvRun(Home(), SentUpdate());
  }

  const TWO: Event := ReleaseHandle(FILE, [2], "", "")

  lemma WriteTwo(w: World)
    requires FILE in w.issued
    ensures Legal(w, TWO)
    ensures var r := Apply(w, TWO);
            r.client == Release(w.client, FILE, [2], "", "") && r.up == w.up && r.drive == w.drive
  {
    FileIsFile();
  }

  lemma OneIsNotTwo()
    ensures var one: Bytes, two: Bytes := [1], [2]; one != two
  {
    var one: Bytes, two: Bytes := [1], [2];
    assert one[0] != two[0];
  }

  /** A second release between sending and finalising an update is lost. */
  lemma LateWriteIsLost()
    ensures IsRun(Home(), SentUpdate() + [TWO] + FINALISATION)
    ensures !Secure(Run(Home(), SentUpdate() + [TWO] + FINALISATION), FILE, [2])
  {
    var es := SentUpdate();
    SentUpdateRuns();
    DriveIsIssued();
    FileIsFile();
    WriteTwo(Run(Home(), es));
    OneMore(Home(), es, TWO);
    var w := Run(Home(), es + [TWO]);
    FinalisationRuns(w);
    RunAppend(Home(), es + [TWO], FINALISATION);
    OneIsNotTwo();
    LateWrite(Run(Home(), es), [2], "", "");
    assert Run(w, FINALISATION).client == CommitUpdate(w.client, FILE, Answer());
  }

  lemma TwoMidCommit(w: World)
    requires At(w, RowDone) && w.up.id == FILE && w.up.info == Answer()
    ensures var d := Finished(Release(w.client, FILE, [2], "", ""), FILE, w.up.parent, Answer());
            Dirty(d.rows, FILE) && Payload(d, FILE) == None && !Secure(w.(client := d), FILE, [2])
  {
    FileIsFile();
    MidCommitWrite(w, [2], "", "");
  }

  lemma RowOfUpdate()
    ensures IsRun(Home(), SentUpdate() + [UploadRow])
    ensures var w := Run(Home(), SentUpdate() + [UploadRow]);
            At(w, RowDone) && w.up.id == FILE && w.up.info == Answer() && FILE in w.issued
  {
    SentUpdateRuns();
    DriveIsIssued();
    OneMore(Home(), SentUpdate(), UploadRow);
  }

  function WrittenMidCommit(): seq<Event> { SentUpdate() + [UploadRow] + [TWO] + REST }

  /** A second release after the row has been cleared leaves the file dirty
      with nothing to upload. */
  lemma MidCommitWriteIsLost()
    ensures IsRun(Home(), WrittenMidCommit())
    ensures var w := Run(Home(), WrittenMidCommit());
            Dirty(w.client.rows, FILE) && Payload(w.client, FILE) == None && !Secure(w, FILE, [2])
  {
    var es := SentUpdate() + [UploadRow];
    RowOfUpdate();
    WriteTwo(Run(Home(), es));
    OneMore(Home(), es, TWO);
    TwoMidCommit(Run(Home(), es));
    RestRuns(Run(Home(), es + [TWO]));
    RunAppend(Home(), es + [TWO], REST);
  }

  /** The change that the client's own upload causes in the feed comes back
      after a further write, and clears its flag. */
  function OwnChange(): Change { Change(FILE, false, Some(Answer())) }

  function WrittenAgain(): seq<Event> { SentUpdate() + FINALISATION + [TWO] }

  lemma AgainStep(w: World)
    requires w.up.Idle? && w.drive == map[FILE := [1]] && FILE in w.issued
    ensures Legal(w, TWO)
    ensures var r := Apply(w, TWO);
            r.up.Idle? && r.drive == w.drive && Dirty(r.client.rows, FILE)
  {
    FileIsFile();
  }

  lemma FeedTakesWrite()
    ensures IsRun(Home(), WrittenAgain() + [FeedChange(OwnChange())])
    ensures !Secure(Run(Home(), WrittenAgain() + [FeedChange(OwnChange())]), FILE, [2])
  {
    var es := SentUpdate();
    SentUpdateRuns();
    FileIsFile();
    var sent := Run(Home(), es);
    FinalisationRuns(sent);
    RunAppend(Home(), es, FINALISATION);
    DriveIsIssued();
    AgainStep(Run(Home(), es + FINALISATION));
    OneMore(Home(), es + FINALISATION, TWO);
    var w := Run(Home(), WrittenAgain());
    OneMore(Home(), WrittenAgain(), FeedChange(OwnChange()));
    var one: Bytes, two: Bytes := [1], [2];
    assert one[0] != two[0];
    ChangeOverDirty(w, OwnChange(), two);
  }

  // ── A file that Drive no longer has ──

  const SHOWN: Event := ListingArrives("d", [Info(FILE)], [])
  const GONE: Event := FeedChange(Change(FILE, true, None))

  lemma ShownStep()
    ensures Legal(Home(), SHOWN)
    ensures HasId(N.Cached(Apply(Home(), SHOWN).client.names, "d"), FILE)
  {
    var n := Home().client.names;
    L.ListingArrives(n, "d", [Info(FILE)], []);
    var m := Apply(Home(), SHOWN).client.names;
    assert m.dirCache["d"][0] == Info(FILE);
  }

  /** A removal in the feed leaves the file in a cached listing, where neither
      metadata nor a row is behind it any more. */
  lemma RemovedFileStaysListed()
    ensures IsRun(Home(), [SHOWN] + [GONE])
    ensures var c := Run(Home(), [SHOWN] + [GONE]).client;
            FILE !in c.names.metadata && FILE !in c.rows && HasId(N.Cached(c.names, "d"), FILE)
  {
    FileIsFile();
    OneStep(Home(), SHOWN);
    ShownStep();
    var w := Run(Home(), [SHOWN]);
    OneMore(Home(), [SHOWN], GONE);
    assert Apply(w, GONE).client.names.dirCache == w.client.names.dirCache;
  }

  // ── A placeholder, created and released, whose upload has been sent ──

  const OLD_DIR: Id := "a"
  const NEW_DIR: Id := "b"

  const LIST: Event := ListingArrives(NEW_DIR, [], [])
  const CREATE: Event := CreateFile(OLD_DIR, "x")

  function NewInfo(): FileInfo { Info(NEW).(size := 1) }

  function Send(): Event { UploadSend(NewInfo()) }

  function Store(): Event { ReleaseHandle(PendingId(1), [1], "", "") }

  function ReleasedPlaceholder(): seq<Event> { [LIST] + [CREATE] + [Store()] }

  function AskedPlaceholder(): seq<Event> { ReleasedPlaceholder() + [UploadLoad(PendingId(1))] + [UploadAsk] }

  function SentPlaceholder(): seq<Event> { AskedPlaceholder() + [Send()] }

  /** What the witnesses need to know along the way. */
  predicate Known(w: World, parents: map<Id, Id>, listings: map<Id, seq<FileInfo>>, metadata: map<Id, FileInfo>) {
    && w.client.names.pendingParents == parents && w.client.names.dirCache == listings
    && w.client.names.metadata == metadata
    && w.issued == {FILE} && w.client.tiers.ramMax == 0
  }

  predicate Listed(w: World) {
    Known(w, map[], map[NEW_DIR := []], map[]) && w.up.Idle? && w.client.rows == map[] && w.nextFh == 1
  }

  predicate CreatedHere(w: World) {
    && Known(w, map[PendingId(1) := OLD_DIR], map[NEW_DIR := []], map[PendingId(1) := Placeholder(PendingId(1), "x")])
    && w.up.Idle? && w.client.rows == map[]
  }

  function Sized(): FileInfo { Placeholder(PendingId(1), "x").(size := 1) }

  predicate Released(w: World) {
    var p := PendingId(1);
    && Known(w, map[p := OLD_DIR], map[NEW_DIR := []], map[p := Sized()])
    && w.client.rows.Keys == {p} && w.client.rows[p].dirty && w.client.rows[p].parent == OLD_DIR
  }

  lemma ListingStep()
    ensures Legal(Home(), LIST) && Listed(Apply(Home(), LIST))
  {
  }

  lemma CreateStep(w: World)
    requires Listed(w)
    ensures Legal(w, CREATE) && CreatedHere(Apply(w, CREATE))
  {
  }

  lemma ReleaseStep(w: World)
    requires CreatedHere(w)
    ensures Legal(w, Store())
    ensures var r := Apply(w, Store());
            Released(r) && r.up.Idle? && Find(r.client.tiers.disk, PendingId(1)) == Some([1])
            && PendingId(1) !in r.client.tiers.moka && PendingId(1) !in r.client.tiers.blobs
  {
    PendingIsFile(1);
  }

  lemma LoadStep(w: World)
    requires Released(w) && w.up.Idle? && Find(w.client.tiers.disk, PendingId(1)) == Some([1])
    requires PendingId(1) !in w.client.tiers.moka && PendingId(1) !in w.client.tiers.blobs
    ensures Legal(w, UploadLoad(PendingId(1)))
    ensures var r := Apply(w, UploadLoad(PendingId(1))); Released(r) && r.up == Loaded(PendingId(1), [1])
  {
    assert CacheKey(w.client, PendingId(1)) == PendingId(1);
  }

  lemma AskStep(w: World)
    requires Released(w) && w.up == Loaded(PendingId(1), [1])
    ensures Legal(w, UploadAsk)
    ensures Apply(w, UploadAsk) == w.(up := Asked(PendingId(1), [1], OLD_DIR))
  {
    assert !IsPending(OLD_DIR);
  }

  lemma SendStep(w: World)
    requires Released(w) && w.up == Asked(PendingId(1), [1], OLD_DIR)
    ensures Legal(w, Send())
    ensures var r := Apply(w, Send());
            && r.client == w.client && NEW in r.drive
            && r.up == Sent(PendingId(1), [1], OLD_DIR, NewInfo(), Answered)
  {
  }

  lemma ReleasedPlaceholderRuns()
    ensures IsRun(Home(), ReleasedPlaceholder())
    ensures var w := Run(Home(), ReleasedPlaceholder());
            && Released(w) && w.up.Idle? && Find(w.client.tiers.disk, PendingId(1)) == Some([1])
            && PendingId(1) !in w.client.tiers.moka && PendingId(1) !in w.client.tiers.blobs
  {
    ListingStep();
    OneStep(Home(), LIST);
    CreateStep(Run(Home(), [LIST]));
    OneMore(Home(), [LIST], CREATE);
    ReleaseStep(Run(Home(), [LIST] + [CREATE]));
    OneMore(Home(), [LIST] + [CREATE], Store());
  }

  /** What is known of the placeholder while it is being uploaded. */
  predicate OnItsWay(w: World) {
    && w.client.names.pendingParents == map[PendingId(1) := OLD_DIR]
    && w.client.names.dirCache == map[NEW_DIR := []]
    && w.client.names.metadata == map[PendingId(1) := Sized()]
    && w.client.rows.Keys == {PendingId(1)} && w.client.rows[PendingId(1)].dirty
  }

  lemma AskedPlaceholderRuns()
    ensures IsRun(Home(), AskedPlaceholder())
    ensures var w := Run(Home(), AskedPlaceholder()); Released(w) && w.up == Asked(PendingId(1), [1], OLD_DIR)
  {
    var es := ReleasedPlaceholder();
    ReleasedPlaceholderRuns();
    LoadStep(Run(Home(), es));
    OneMore(Home(), es, UploadLoad(PendingId(1)));
    AskStep(Run(Home(), es + [UploadLoad(PendingId(1))]));
    OneMore(Home(), es + [UploadLoad(PendingId(1))], UploadAsk);
  }

  lemma SentPlaceholderRuns()
    ensures IsRun(Home(), SentPlaceholder())
    ensures var w := Run(Home(), SentPlaceholder());
            w.up == Sent(PendingId(1), [1], OLD_DIR, NewInfo(), Answered) && NEW in w.drive && OnItsWay(w)
  {
    AskedPlaceholderRuns();
    SendStep(Run(Home(), AskedPlaceholder()));
    OneMore(Home(), AskedPlaceholder(), Send());
  }

  // ── A placeholder that moves while Drive is being asked ──

  const MOVE: Event := RenamePlaceholder(OLD_DIR, NEW_DIR, PendingId(1), "y")

  function Renamed(): FileInfo { Sized().(name := "y") }

  lemma MoveStep(w: World)
    requires OnItsWay(w)
    ensures Legal(w, MOVE)
    ensures Apply(w, MOVE).up == w.up && Apply(w, MOVE).client.names.dirCache == map[NEW_DIR := [Renamed()]]
  {
    assert OLD_DIR[0] != NEW_DIR[0];
    var n := w.client.names;
    var r := RenamePending(n, OLD_DIR, NEW_DIR, PendingId(1), "y");
    assert [] + [Renamed()] == [Renamed()];
    assert r.dirCache == RenameInCache(n.dirCache, OLD_DIR, NEW_DIR, PendingId(1), "y", Some(Renamed()));
    assert r.dirCache == n.dirCache[NEW_DIR := [Renamed()]];
    assert r.dirCache == map[NEW_DIR := [Renamed()]];
  }

  predicate StillListed(n: Names) { HasId(N.Cached(n, NEW_DIR), PendingId(1)) }

  lemma FinishMoved(w: World)
    requires w.up == Sent(PendingId(1), [1], OLD_DIR, NewInfo(), Answered)
    requires w.client.names.dirCache == map[NEW_DIR := [Renamed()]]
    ensures IsRun(w, FINALISATION) && StillListed(Run(w, FINALISATION).client.names)
  {
    FinalisationRuns(w);
    var r := Run(w, FINALISATION).client.names;
    assert r == ReplacePending(w.client.names, PendingId(1), OLD_DIR, NewInfo());
    assert r.dirCache == w.client.names.dirCache;
    assert r.dirCache[NEW_DIR][0].id == PendingId(1);
  }

  /** Moved to another cached directory after Drive has been asked, the pending
      id stays visible there after its upload is finalised. */
  lemma LateMoveStays()
    ensures var es := SentPlaceholder() + [MOVE] + FINALISATION;
            IsRun(Home(), es) && StillListed(Run(Home(), es).client.names)
  {
    var es := SentPlaceholder();
    SentPlaceholderRuns();
    MoveStep(Run(Home(), es));
    OneMore(Home(), es, MOVE);
    FinishMoved(Run(Home(), es + [MOVE]));
    RunAppend(Home(), es + [MOVE], FINALISATION);
  }

  lemma ForgetMoved(w: World)
    requires w.up == Asked(PendingId(1), [1], OLD_DIR) && w.client.names.dirCache == map[NEW_DIR := [Renamed()]]
    ensures IsRun(w, [UploadRefused] + [UploadForget])
    ensures StillListed(Run(w, [UploadRefused] + [UploadForget]).client.names)
  {
    OneStep(w, UploadRefused);
    OneMore(w, [UploadRefused], UploadForget);
    var r := Run(w, [UploadRefused] + [UploadForget]).client.names;
    assert OLD_DIR[0] != NEW_DIR[0];
    assert r == RemovePending(w.client.names, OLD_DIR, PendingId(1));
    assert r.dirCache == w.client.names.dirCache;
    assert r.dirCache[NEW_DIR][0].id == PendingId(1);
  }

  /** The same when Drive refuses the creation. */
  lemma RefusedMoveStays()
    ensures var es := AskedPlaceholder() + [MOVE] + ([UploadRefused] + [UploadForget]);
            IsRun(Home(), es) && StillListed(Run(Home(), es).client.names)
  {
    var es := AskedPlaceholder();
    AskedPlaceholderRuns();
    MoveStep(Run(Home(), es));
    OneMore(Home(), es, MOVE);
    ForgetMoved(Run(Home(), es + [MOVE]));
    RunAppend(Home(), es + [MOVE], [UploadRefused] + [UploadForget]);
  }

  // ── A new file that the change feed shows first ──

  function NewChange(): Change { Change(NEW, false, Some(NewInfo())) }

  lemma FeedStep(w: World)
    requires w.up == Sent(PendingId(1), [1], OLD_DIR, NewInfo(), Answered) && NEW in w.drive && OnItsWay(w)
    ensures Legal(w, FeedChange(NewChange()))
    ensures var r := Apply(w, FeedChange(NewChange()));
            r.up == w.up && NEW in r.drive && NEW in r.client.rows && Dirty(r.client.rows, PendingId(1))
  {
  }

  lemma FinishTaken(w: World)
    requires w.up == Sent(PendingId(1), [1], OLD_DIR, NewInfo(), Answered) && NEW in w.drive
    requires NEW in w.client.rows && Dirty(w.client.rows, PendingId(1))
    ensures IsRun(w, FINALISATION)
    ensures Dirty(Run(w, FINALISATION).client.rows, PendingId(1)) && NEW in Run(w, FINALISATION).drive
  {
    FinalisationRuns(w);
  }

  /** The poll inserts the real id's row before the uploader renames the
      pending one: the entry stays dirty although Drive has the file. */
  lemma FeedFirstStaysDirty()
    ensures var es := SentPlaceholder() + [FeedChange(NewChange())] + FINALISATION;
            IsRun(Home(), es) && Dirty(Run(Home(), es).client.rows, PendingId(1)) && NEW in Run(Home(), es).drive
  {
    var es := SentPlaceholder();
    SentPlaceholderRuns();
    FeedStep(Run(Home(), es));
    OneMore(Home(), es, FeedChange(NewChange()));
    FinishTaken(Run(Home(), es + [FeedChange(NewChange())]));
    RunAppend(Home(), es + [FeedChange(NewChange())], FINALISATION);
  }

  // ── A write to a placeholder whose row has been finalised ──

  /** Drive's answer to the creation, with a checksum. */
  function SummedInfo(): FileInfo { NewInfo().(md5 := Some(SUM)) }

  function SentSummed(): seq<Event> { AskedPlaceholder() + [UploadSend(SummedInfo())] }

  const AGAIN: Event := ReleaseHandle(PendingId(1), [2], "", "")

  lemma SendSummed(w: World)
    requires Released(w) && w.up == Asked(PendingId(1), [1], OLD_DIR)
    ensures Legal(w, UploadSend(SummedInfo()))
    ensures var r := Apply(w, UploadSend(SummedInfo()));
            r.up == Sent(PendingId(1), [1], OLD_DIR, SummedInfo(), Answered) && NEW !in r.client.rows
  {
    FileIsFile();
  }

  lemma SentSummedRuns()
    ensures IsRun(Home(), SentSummed())
    ensures var w := Run(Home(), SentSummed());
            w.up == Sent(PendingId(1), [1], OLD_DIR, SummedInfo(), Answered) && NEW !in w.client.rows
  {
    AskedPlaceholderRuns();
    SendSummed(Run(Home(), AskedPlaceholder()));
    OneMore(Home(), AskedPlaceholder(), UploadSend(SummedInfo()));
  }

  lemma SummedIsEarly()
    ensures I.AllEarly(SentSummed())
  {
  }

  lemma EarlyInodes(es: seq<Event>)
    requires IsRun(Home(), es) && I.AllEarly(es)
    ensures I.Inv(Run(Home(), es))
  {
    I.EarlyRun(Home(), es);
  }

  lemma SummedRow(w: World)
    requires w.up == Sent(PendingId(1), [1], OLD_DIR, SummedInfo(), Answered) && NEW !in w.client.rows && I.Inv(w)
    ensures Legal(w, UploadRow) && Legal(Apply(w, UploadRow), AGAIN)
    ensures var r := Apply(w, UploadRow);
            I.Inv(r) && r.up == w.up.(stage := RowDone) && I.Moving(r).0 == PendingId(1)
  {
    PendingIsFile(1);
    I.Step(w, UploadRow);
  }

  lemma AgainOrphaned(w: World)
    requires At(w, RowDone) && w.up.id == PendingId(1) && w.up.info == SummedInfo()
    ensures var p := PendingId(1);
            var d := Finished(Release(w.client, p, [2], "", ""), p, w.up.parent, w.up.info);
            Dirty(d.rows, p) && p !in d.names.metadata && p !in d.names.idToIno && Payload(d, p) == None
  {
    FileIsFile();
    PendingIsFile(1);
    MidCommitWriteToNewFile(w, [2], "", "");
  }

  function WrittenToNewFile(): seq<Event> { SentSummed() + [UploadRow] + [AGAIN] }

  lemma WrittenToNewFileRuns(order: seq<(Id, nat)>)
    ensures IsRun(Home(), WrittenToNewFile())
    ensures var w, p := Run(Home(), WrittenToNewFile()), PendingId(1);
            && At(w, RowDone)
            && var d := Finished(w.client, w.up.id, w.up.parent, w.up.info);
               Dirty(d.rows, p) && p !in d.names.metadata && p !in d.names.idToIno && Payload(d, p) == None
    ensures Enumerates(order, Run(Home(), WrittenToNewFile()).client.rows) ==> !I.Sound(Restore(order))
  {
    var es := SentSummed();
    SentSummedRuns();
    SummedIsEarly();
    EarlyInodes(es);
    SummedRow(Run(Home(), es));
    OneMore(Home(), es, UploadRow);
    OneMore(Home(), es + [UploadRow], AGAIN);
    var w := Run(Home(), es + [UploadRow]);
    AgainOrphaned(w);
    if Enumerates(order, Apply(w, AGAIN).client.rows) {
      I.SharedInode(w, AGAIN, order);
    }
  }

  /** A second release to a new file between the calls of its finalisation ends
      in a dirty row that nothing leads to and that has nothing to upload, and
      a remount right after it gives two files one inode. */
  lemma OrphanedWrite(order: seq<(Id, nat)>)
    ensures IsRun(Home(), WrittenToNewFile()) && IsRun(Home(), WrittenToNewFile() + REST)
    ensures var c, p := Run(Home(), WrittenToNewFile() + REST).client, PendingId(1);
            Dirty(c.rows, p) && p !in c.names.metadata && p !in c.names.idToIno && Payload(c, p) == None
    ensures Enumerates(order, Run(Home(), WrittenToNewFile()).client.rows) ==> !I.Sound(Restore(order))
  {
    WrittenToNewFileRuns(order);
    RestRuns(Run(Home(), WrittenToNewFile()));
    RunAppend(Home(), WrittenToNewFile(), REST);
  }

  // ── A handle number that comes back ──

  function Restarted(order: seq<(Id, nat)>): seq<Event> { ReleasedPlaceholder() + [CrashAndRestart(order)] + [CREATE] }

  lemma AfterRestart(w: World)
    requires w.up.Idle? && w.nextFh == 1
    ensures Legal(w, CREATE) && Legal(Apply(w, CREATE), AGAIN)
    ensures var r := Apply(Apply(w, CREATE), AGAIN);
            !Holds(SlotOf(r.client.tiers, PendingId(1)), [1])
  {
    PendingIsFile(1);
    var c := Apply(w, CREATE).client;
    var one: Bytes, two: Bytes := [1], [2];
    assert one[0] != two[0];
    LeftoverOverwritten(c, PendingId(1), one, two, "", "");
  }

  /** After a crash the first new file gets the number of the unsent one, and
      its release replaces those bytes. */
  lemma LeftoverIsLost(order: seq<(Id, nat)>)
    ensures IsRun(Home(), ReleasedPlaceholder())
    ensures Holds(SlotOf(Run(Home(), ReleasedPlaceholder()).client.tiers, PendingId(1)), [1])
    ensures Enumerates(order, Run(Home(), ReleasedPlaceholder()).client.rows) ==>
              var es := Restarted(order) + [AGAIN];
              IsRun(Home(), es) && !Holds(SlotOf(Run(Home(), es).client.tiers, PendingId(1)), [1])
  {
    var es := ReleasedPlaceholder();
    ReleasedPlaceholderRuns();
    if Enumerates(order, Run(Home(), es).client.rows) {
      OneMore(Home(), es, CrashAndRestart(order));
      AfterRestart(Run(Home(), es + [CrashAndRestart(order)]));
      OneMore(Home(), es + [CrashAndRestart(order)], CREATE);
      OneMore(Home(), Restarted(order), AGAIN);
    }
  }

  // ── A migration onto other bytes ──

  /** A small copy under a checksum hides large content that is moved there. */
  lemma MigrationHidden()
    ensures var t := TierRun(Tiers(1, map[], map[], map[]), [StoreAt("m", [1]), StoreAt("f", [1, 2])]);
            && !Unshadowed(t, "f", "m")
            && Lookup(t, "f") == Some([1, 2]) && Lookup(Migrate(t, "f", "m"), "m") == Some([1])
  {
    var es := [StoreAt("m", [1]), StoreAt("f", [1, 2])];
    assert es[1..] == [es[1]] && es[1..][1..] == [];
    assert TierRun(Tiers(1, map[], map[], map[]), es)
        == TierApply(TierApply(Tiers(1, map[], map[], map[]), es[0]), es[1]);
    var one: Bytes, both: Bytes := [1], [1, 2];
    assert |one| != |both|;
  }
}
