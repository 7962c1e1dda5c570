/** A run in which the cache serves wrong bytes under a checksum: a placeholder
    stays dirty after its upload, only its BLOB has gone, and the next upload
    of what stays behind takes a stale disk file along. */
module Stranding {
  import opened Basics
  import opened ContentTiers
  import opened Names
  import opened Client
  import opened ClientRun
  import opened Witnesses

  const PH: Id := PendingId(1)
  const SECOND: Id := "s"

  /** Content of one byte is small, and Drive is empty. */
  function Start(): World { FirstStart(1, map[]) }

  const LONG: Event := ReleaseHandle(PH, [1, 2], "", "")
  const SHORT: Event := ReleaseHandle(PH, [1], "", "")

  function SecondInfo(): FileInfo { Info(SECOND).(size := 1, md5 := Some(SUM)) }

  /** The placeholder's row is dirty. */
  predicate Waiting(w: World) {
    PH in w.client.rows && w.client.rows[PH].dirty && w.client.rows[PH].parent == OLD_DIR
  }

  predicate Begun(w: World) {
    && w.up.Idle? && w.client.rows == map[] && w.issued == {} && w.client.tiers == Tiers(1, map[], map[], map[])
    && PH in w.client.names.pendingParents && w.client.names.pendingParents[PH] == OLD_DIR
  }

  predicate Long(w: World) {
    && w.up.Idle? && Waiting(w) && w.client.rows.Keys == {PH} && w.issued == {}
    && PH in w.client.names.pendingParents && w.client.names.pendingParents[PH] == OLD_DIR
    && w.client.tiers == Tiers(1, map[], map[], map[PH := [1, 2]])
  }

  /** A BLOB in front of a stale disk file. */
  predicate Short(w: World) {
    && Waiting(w) && w.client.rows.Keys == {PH}
    && w.client.tiers == Tiers(1, map[PH := [1]], map[PH := [1]], map[PH := [1, 2]])
  }

  lemma CreateHere()
    ensures Legal(Start(), CREATE) && Begun(Apply(Start(), CREATE))
  {
  }

  lemma ReleaseLong(w: World)
    requires Begun(w)
    ensures Legal(w, LONG) && Long(Apply(w, LONG))
  {
    PendingIsFile(1);
  }

  lemma ReleaseShort(w: World)
    requires Long(w)
    ensures Legal(w, SHORT) && Short(Apply(w, SHORT)) && Apply(w, SHORT).up.Idle? && Apply(w, SHORT).issued == {}
  {
    PendingIsFile(1);
    assert map[PH := [1]][PH := [1]] == map[PH := [1]];
  }

  function Released(): seq<Event> { [CREATE] + [LONG] + [SHORT] }

  lemma ReleasedRuns()
    ensures IsRun(Start(), Released())
    ensures var w := Run(Start(), Released()); Short(w) && w.up.Idle? && w.issued == {}
  {
    CreateHere();
    OneStep(Start(), CREATE);
    ReleaseLong(Run(Start(), [CREATE]));
    OneMore(Start(), [CREATE], LONG);
    ReleaseShort(Run(Start(), [CREATE] + [LONG]));
    OneMore(Start(), [CREATE] + [LONG], SHORT);
  }

  // ── An upload of a small copy in RAM ──

  lemma LoadHere(w: World)
    requires Waiting(w) && w.up.Idle? && Find(w.client.tiers.moka, PH) == Some([1])
    ensures Legal(w, UploadLoad(PH))
    ensures var r := Apply(w, UploadLoad(PH)); r.client == w.client && r.issued == w.issued && r.up == Loaded(PH, [1])
  {
    assert CacheKey(w.client, PH) == PH;
  }

  lemma AskHere(w: World)
    requires Waiting(w) && w.up == Loaded(PH, [1])
    ensures Legal(w, UploadAsk) && Apply(w, UploadAsk) == w.(up := Asked(PH, [1], OLD_DIR))
  {
    assert !IsPending(OLD_DIR);
  }

  function Uploading(info: FileInfo): seq<Event> { [UploadLoad(PH)] + [UploadAsk] + [UploadSend(info)] }

  lemma UploadRuns(w: World, info: FileInfo)
    requires Waiting(w) && w.up.Idle? && Find(w.client.tiers.moka, PH) == Some([1])
    requires FromDrive(info) && info.id !in w.issued && info.size == 1
    ensures IsRun(w, Uploading(info))
    ensures var r := Run(w, Uploading(info));
            && r.client == w.client && r.up == Sent(PH, [1], OLD_DIR, info, Answered)
            && r.issued == w.issued + {info.id} && Find(r.drive, info.id) == Some([1])
  {
    LoadHere(w);
    OneStep(w, UploadLoad(PH));
    AskHere(Run(w, [UploadLoad(PH)]));
    OneMore(w, [UploadLoad(PH)], UploadAsk);
    OneMore(w, [UploadLoad(PH)] + [UploadAsk], UploadSend(info));
  }

  // ── The feed shows the first real id too early ──

  lemma FeedHere(w: World)
    requires Short(w)
    ensures Legal(w, FeedChange(NewChange()))
    ensures var r := Apply(w, FeedChange(NewChange()));
            && r.up == w.up && r.issued == w.issued && r.client.tiers == w.client.tiers
            && NEW in r.client.rows && Waiting(r) && SECOND !in r.client.rows
  {
  }

  /** Only the BLOB has gone. */
  predicate Left(w: World) {
    && w.up.Idle? && Waiting(w) && w.issued == {NEW} && SECOND !in w.client.rows
    && w.client.tiers == Tiers(1, map[PH := [1]], map[NEW := [1]], map[PH := [1, 2]])
  }

  lemma FinishFirst(w: World)
    requires w.up == Sent(PH, [1], OLD_DIR, NewInfo(), Answered) && w.issued == {NEW} && Waiting(w)
    requires NEW in w.client.rows && SECOND !in w.client.rows
    requires w.client.tiers == Tiers(1, map[PH := [1]], map[PH := [1]], map[PH := [1, 2]])
    ensures IsRun(w, FINALISATION) && Left(Run(w, FINALISATION))
  {
    FinalisationRuns(w);
    var blobs: map<Key, Bytes> := map[PH := [1]];
    assert (blobs - {PH})[NEW := blobs[PH]] == map[NEW := [1]];
  }

  function Shown(): seq<Event> { Uploading(NewInfo()) + [FeedChange(NewChange())] }

  lemma ShownRuns(w: World)
    requires Short(w) && w.up.Idle? && w.issued == {}
    ensures IsRun(w, Shown())
    ensures var r := Run(w, Shown());
            && r.up == Sent(PH, [1], OLD_DIR, NewInfo(), Answered) && r.issued == {NEW} && Waiting(r)
            && NEW in r.client.rows && SECOND !in r.client.rows && r.client.tiers == w.client.tiers
  {
    UploadRuns(w, NewInfo());
    var sent := Run(w, Uploading(NewInfo()));
    assert Short(sent);
    FeedHere(sent);
    OneMore(w, Uploading(NewInfo()), FeedChange(NewChange()));
  }

  lemma StrandingRuns(w: World)
    requires Short(w) && w.up.Idle? && w.issued == {}
    ensures IsRun(w, Shown() + FINALISATION) && Left(Run(w, Shown() + FINALISATION))
  {
    ShownRuns(w);
    FinishFirst(Run(w, Shown()));
    RunAppend(w, Shown(), FINALISATION);
  }

  function StrandedRun(): seq<Event> { Released() + (Shown() + FINALISATION) }

  lemma StrandedRuns()
    ensures IsRun(Start(), StrandedRun()) && Left(Run(Start(), StrandedRun()))
  {
    ReleasedRuns();
    StrandingRuns(Run(Start(), Released()));
    RunAppend(Start(), Released(), Shown() + FINALISATION);
  }

  // ── The second upload ──

  lemma FinishSecond(w: World)
    requires w.up == Sent(PH, [1], OLD_DIR, SecondInfo(), Answered) && Waiting(w) && SECOND !in w.client.rows
    requires w.client.tiers == Tiers(1, map[PH := [1]], map[NEW := [1]], map[PH := [1, 2]])
    ensures IsRun(w, FINALISATION)
    ensures var r := Run(w, FINALISATION);
            && r.drive == w.drive && CacheKey(r.client, SECOND) == SUM
            && SUM !in r.client.tiers.blobs && Find(r.client.tiers.disk, SUM) == Some([1, 2])
  {
    FinalisationRuns(w);
    assert SUM != PH && SUM != NEW;
  }

  function UploadAgain(): seq<Event> { Uploading(SecondInfo()) + FINALISATION }

  lemma AgainRuns(w: World)
    requires Left(w)
    ensures IsRun(w, UploadAgain())
    ensures var r := Run(w, UploadAgain());
            && Find(r.drive, SECOND) == Some([1]) && CacheKey(r.client, SECOND) == SUM
            && SUM !in r.client.tiers.blobs && Find(r.client.tiers.disk, SUM) == Some([1, 2])
  {
    FileIsFile();
    UploadRuns(w, SecondInfo());
    FinishSecond(Run(w, Uploading(SecondInfo())));
    RunAppend(w, Uploading(SecondInfo()), FINALISATION);
  }

  lemma EvictHere(w: World)
    requires CacheKey(w.client, SECOND) == SUM
    requires SUM !in w.client.tiers.blobs && Find(w.client.tiers.disk, SUM) == Some([1, 2])
    ensures Legal(w, RamEviction({SUM}))
    ensures var r := Apply(w, RamEviction({SUM})); r.drive == w.drive && Read(r.client, SECOND) == Some([1, 2])
  {
  }

  function ServedWrong(): seq<Event> { StrandedRun() + UploadAgain() + [RamEviction({SUM})] }

  /** Drive holds the one byte that was uploaded and has answered with its
      checksum, and the file, on that checksum, reads two bytes. */
  lemma WrongBytesAreServed()
    ensures IsRun(Start(), ServedWrong())
    ensures var w := Run(Start(), ServedWrong());
            Find(w.drive, SECOND) == Some([1]) && Read(w.client, SECOND) == Some([1, 2])
  {
    StrandedRuns();
    AgainRuns(Run(Start(), StrandedRun()));
    RunAppend(Start(), StrandedRun(), UploadAgain());
    EvictHere(Run(Start(), StrandedRun() + UploadAgain()));
    OneMore(Start(), StrandedRun() + UploadAgain(), RamEviction({SUM}));
  }
}
