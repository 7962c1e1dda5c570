/** Whole runs of the client: FUSE callbacks, workers, the uploader, the
    cleaner and restarts, interleaved in any order.  Drive is a map that only
    this client's uploads and deletions change. */
module ClientRun {
  import opened Basics
  import opened ContentTiers
  import opened Names
  import opened Client

  /** How far the finalisation of an accepted upload has come. */
  datatype Stage = Answered | RowDone | BlobDone | ContentDone

  /** The uploader: it loads an entry, reads its row again and asks Drive, and
      once Drive has answered finalises the local stores call by call.  Other
      steps may come in between. */
  datatype Uploader =
    | Idle
    | Loaded(id: Id, content: Bytes)
    | Asked(id: Id, content: Bytes, parent: Id)
    | Sent(id: Id, content: Bytes, parent: Id, info: FileInfo, stage: Stage)
    | Refused(id: Id, parent: Id)

  /** `issued` are the ids Drive has ever given out; `owed` records, for each
      file, the non-empty bytes last stored as a local modification, as long
      as Drive has not refused them and nothing has replaced them; `outdated`
      says that the file in flight has been stored, deleted, or come over by
      Drive since its load, or was loaded from a stale disk file. */
  datatype World = World(
    client: Client,
    nextFh: nat,
    up: Uploader,
    drive: map<Id, Bytes>,
    issued: set<Id>,
    owed: map<Id, Bytes>,
    outdated: bool)

  datatype Event =
    | CreateFile(parent: Id, name: string)
    | OpenHandle
    | Flush(id: Id, content: Bytes)
    | ReleaseHandle(id: Id, content: Bytes, name: string, parent: Id)
    | RenamePlaceholder(from: Id, to: Id, id: Id, name: string)
    | ListingArrives(parent: Id, files: seq<FileInfo>, order: seq<Id>)
    | Invalidate(parent: Id)
    | MetadataArrives(info: FileInfo)
    | DownloadArrives(id: Id, content: Bytes)
    | ReadContent(id: Id)
    | RamEviction(keys: set<Key>)
    | DiskEviction(keys: set<Key>)
    | FeedChange(change: Change)
    | Delete(id: Id)
    | UploadLoad(id: Id)
    | UploadAsk
    | UploadSend(info: FileInfo)
    | UploadFail
    | UploadRow
    | UploadBlob
    | UploadContent
    | UploadNames
    | UploadRefused
    | UploadForget
    | CrashAndRestart(rowOrder: seq<(Id, nat)>)

  /** The file, under its old and its new id, that the uploader is busy with. */
  predicate InFlight(w: World, id: Id) {
    match w.up
    case Idle => false
    case Loaded(u, _) => id == u
    case Asked(u, _, _) => id == u
    case Sent(u, _, _, info, _) => id == u || id == info.id
    case Refused(u, _) => id == u
  }

  /** The uploader is at this stage of a finalisation. */
  predicate At(w: World, stage: Stage) { w.up.Sent? && w.up.stage == stage }

  /** An MD5 checksum as Drive prints it. */
  predicate IsMd5(k: string) {
    |k| == 32 && forall i :: 0 <= i < 32 ==> '0' <= k[i] <= '9' || 'a' <= k[i] <= 'f'
  }

  predicate FileId(id: Id) { id != "" && id != ROOT_ID && !IsMd5(id) && !EndsWith(id, ".tmp") }

  lemma PendingIsFile(fh: nat)
    ensures FileId(PendingId(fh))
  {
    var id, digits := PendingId(fh), Decimal(fh);
    assert id[0] == '_' && id[|id| - 1] == digits[|digits| - 1];
    assert id[|id| - 4..][3] == digits[|digits| - 1] != ".tmp"[3];
  }

  predicate RealId(id: Id) { FileId(id) && !IsPending(id) }

  /** File metadata as Drive answers it. */
  predicate FromDrive(info: FileInfo) {
    RealId(info.id) && (KnownMd5(info.md5).Some? ==> IsMd5(info.md5.value))
  }

  /** `order` is the key sequence of a map. */
  predicate CoversKeys(order: seq<Id>, m: map<Id, Id>) {
    (forall id :: id in order ==> id in m) && (forall id :: id in m ==> id in order)
  }

  predicate LocalStore(w: World, id: Id) {
    FileId(id) && (IsPending(id) || id in w.issued)
  }

  /** What the kernel, Drive and the file system may do next, also to a file
      whose upload is in flight. */
  ghost predicate Legal(w: World, e: Event) {
    var c := w.client;
    match e
    case CreateFile(_, _) => true
    case OpenHandle => true
    case Flush(id, _) => LocalStore(w, id)
    case ReleaseHandle(id, _, _, _) => LocalStore(w, id)
    case RenamePlaceholder(from, _, id, _) =>
      id in c.names.pendingParents && c.names.pendingParents[id] == from
    case ListingArrives(_, files, order) =>
      (forall f :: f in files ==> FromDrive(f)) && CoversKeys(order, c.names.pendingParents)
    case Invalidate(_) => true
    case MetadataArrives(info) => FromDrive(info)
    case DownloadArrives(id, _) => RealId(id)
    case ReadContent(_) => true
    case RamEviction(_) => true
    case DiskEviction(keys) => forall k :: k in keys ==> Evictable(c.rows, k)
    case FeedChange(ch) =>
      RealId(ch.id) && (ch.file.Some? ==> FromDrive(ch.file.value) && ch.file.value.id == ch.id)
    case Delete(id) => RealId(id)
    case UploadLoad(id) => w.up.Idle? && Dirty(c.rows, id) && Payload(c, id).Some?
    case UploadAsk =>
      w.up.Loaded? && (IsPending(w.up.id) ==> w.up.id in c.rows && !IsPending(c.rows[w.up.id].parent))
    case UploadSend(info) =>
      w.up.Asked? && FromDrive(info) && if IsPending(w.up.id) then info.id !in w.issued else info.id == w.up.id
    case UploadFail => w.up.Loaded? || w.up.Asked? || At(w, Answered)
    case UploadRow => At(w, Answered)
    case UploadBlob => At(w, RowDone)
    case UploadContent => At(w, BlobDone)
    case UploadNames => At(w, ContentDone)
    case UploadRefused => w.up.Asked? && IsPending(w.up.id)
    case UploadForget => w.up.Refused?
    case CrashAndRestart(order) => Enumerates(order, c.rows)
  }

  /** A store of `content` as a local modification of `id`. */
  function Owe(owed: map<Id, Bytes>, id: Id, content: Bytes): map<Id, Bytes> {
    if content == [] then owed - {id} else owed[id := content]
  }

  /** What a new file is owed goes on to its real id. */
  function Promote(owed: map<Id, Bytes>, id: Id, final: Id): map<Id, Bytes> {
    if IsPending(id) && id in owed then (owed - {id})[final := owed[id]] else owed
  }

  /** Finalising a row: bytes that were stored after the load are not promised
      any more, unless Drive holds them. */
  function Settle(w: World): map<Id, Bytes>
    requires w.up.Sent?
  {
    var id, final := w.up.id, w.up.info.id;
    if w.outdated && (Find(w.drive, final) != Find(w.owed, id) || (IsPending(id) && Dirty(w.client.rows, final)))
    then w.owed - {id} else Promote(w.owed, id, final)
  }

  /** The files whose content this call of a finalisation moves or covers. */
  function Swept(w: World, e: Event): set<Id> {
    if !w.up.Sent? || (e.UploadBlob? && w.up.id !in w.client.tiers.blobs) then {}
    else if KnownMd5(w.up.info.md5).Some? then {w.up.id}
    else if e.UploadBlob? && IsPending(w.up.id) then {w.up.id, w.up.info.id}
    else {}
  }

  /** If such a file is dirty, it has been stored since its row was done. */
  function Unswept(w: World, e: Event): map<Id, Bytes> {
    w.owed - (set f | f in Swept(w, e) && Dirty(w.client.rows, f))
  }

  function FinalSize(info: FileInfo, content: Bytes): FileInfo {
    if info.size == 0 then info.(size := |content|) else info
  }

  /** One step. */
  ghost function Apply(w: World, e: Event): World
    requires Legal(w, e)
  {
    var c := w.client;
    match e
    case CreateFile(parent, name) =>
      w.(client := c.(names := Create(c.names, parent, PendingId(w.nextFh), name)), nextFh := w.nextFh + 1)
    case OpenHandle => w.(nextFh := w.nextFh + 1)
    case Flush(id, content) =>
      w.(client := c.(tiers := Store(c.tiers, id, content)),
         owed := if Dirty(c.rows, id) then Owe(w.owed, id, content) else w.owed,
         outdated := w.outdated || InFlight(w, id))
    case ReleaseHandle(id, content, name, parent) =>
      if IsPending(id) && content == [] then w
      else
        w.(client := Release(c, id, content, name, parent),
           owed := Owe(w.owed, id, content),
           outdated := w.outdated || InFlight(w, id))
    case RenamePlaceholder(from, to, id, name) => w.(client := Rename(c, from, to, id, name))
    case ListingArrives(parent, files, order) =>
      w.(client := c.(names := StoreListing(c.names, parent, files, order)))
    case Invalidate(parent) => w.(client := c.(names := InvalidateDir(c.names, parent)))
    case MetadataArrives(info) => w.(client := c.(names := StoreMetadata(c.names, info)))
    case DownloadArrives(id, content) =>
      w.(client := Download(c, id, content),
         owed := if Dirty(c.rows, id) && Find(w.owed, id) != Some(content) then w.owed - {id} else w.owed,
         outdated := w.outdated || (Dirty(c.rows, id) && InFlight(w, id)))
    case ReadContent(id) => w.(client := GetContent(c, id))
    case RamEviction(keys) => w.(client := c.(tiers := EvictRam(c.tiers, keys)))
    case DiskEviction(keys) => w.(client := c.(tiers := EvictDisk(c.tiers, keys)))
    case FeedChange(ch) =>
      w.(client := ApplyChange(c, ch),
         owed := if Dirty(c.rows, ch.id) && Find(w.drive, ch.id) != Find(w.owed, ch.id) then w.owed - {ch.id}
                 else w.owed,
         outdated := w.outdated || (Dirty(c.rows, ch.id) && InFlight(w, ch.id)))
    case Delete(id) =>
      w.(client := Forget(c, id), drive := w.drive - {id}, owed := w.owed - {id},
         outdated := w.outdated || InFlight(w, id))
    case UploadLoad(id) =>
      w.(client := GetContent(c, id), up := Loaded(id, Payload(c, id).value), outdated := StaleOverride(c, id))
    case UploadAsk => w.(up := Asked(w.up.id, w.up.content, if w.up.id in c.rows then c.rows[w.up.id].parent else ""))
    case UploadSend(info) =>
      var final := if IsPending(w.up.id) then FinalSize(info, w.up.content) else info;
      w.(up := Sent(w.up.id, w.up.content, w.up.parent, final, Answered),
         drive := w.drive[info.id := w.up.content], issued := w.issued + {info.id},
         owed := if w.outdated && !Dirty(c.rows, w.up.id) then w.owed - {w.up.id} else w.owed)
    case UploadFail => w.(up := Idle)
    case UploadRow =>
      w.(client := CommitRow(c, w.up.id, w.up.info), up := w.up.(stage := RowDone), owed := Settle(w))
    case UploadBlob =>
      w.(client := CommitBlob(c, w.up.id, w.up.info), up := w.up.(stage := BlobDone), owed := Unswept(w, e))
    case UploadContent =>
      w.(client := CommitContent(c, w.up.id, w.up.info), up := w.up.(stage := ContentDone), owed := Unswept(w, e))
    case UploadNames => w.(client := CommitNames(c, w.up.id, w.up.parent, w.up.info), up := Idle)
    case UploadRefused =>
      w.(client := AbandonRow(c, w.up.id), up := Refused(w.up.id, w.up.parent), owed := w.owed - {w.up.id})
    case UploadForget => w.(client := AbandonNames(c, w.up.id, w.up.parent), up := Idle)
    case CrashAndRestart(order) => w.(client := Restart(c, order), nextFh := 1, up := Idle)
  }

  ghost predicate IsRun(w: World, es: seq<Event>)
    decreases |es|
  {
    es == [] || (Legal(w, es[0]) && IsRun(Apply(w, es[0]), es[1..]))
  }

  ghost function Run(w: World, es: seq<Event>): World
    requires IsRun(w, es)
    decreases |es|
  {
    if es == [] then w else Run(Apply(w, es[0]), es[1..])
  }

  /** The first start: nothing stored anywhere. */
  function FirstStart(ramMax: nat, drive: map<Id, Bytes>): World {
    World(Client(FRESH_NAMES, map[], Tiers(ramMax, map[], map[], map[])), 1, Idle, drive, drive.Keys, map[], false)
  }

  function FollowStep(w: World, e: Event, id: Id): Id {
    if e.UploadRow? && w.up.Sent? && w.up.id == id && IsPending(id) then w.up.info.id else id
  }

  /** The id under which a file goes on: finalising its row replaces a pending
      id. */
  ghost function Follow(w: World, es: seq<Event>, id: Id): Id
    requires IsRun(w, es)
    decreases |es|
  {
    if es == [] then id else Follow(Apply(w, es[0]), es[1..], FollowStep(w, es[0], id))
  }

  // ── Putting runs together ──

  lemma OneStep(w: World, e: Event)
    requires Legal(w, e)
    ensures IsRun(w, [e]) && Run(w, [e]) == Apply(w, e)
  {
    assert [e][1..] == [];
  }

  lemma MoreSteps(w: World, e: Event, es: seq<Event>)
    requires Legal(w, e) && IsRun(Apply(w, e), es)
    ensures IsRun(w, [e] + es) && Run(w, [e] + es) == Run(Apply(w, e), es)
  {
    assert ([e] + es)[1..] == es;
  }

  lemma AppendToRest(w: World, es: seq<Event>, fs: seq<Event>)
    requires es != [] && Legal(w, es[0]) && IsRun(Apply(w, es[0]), es[1..] + fs)
    ensures IsRun(w, es + fs) && Run(w, es + fs) == Run(Apply(w, es[0]), es[1..] + fs)
  {
    MoreSteps(w, es[0], es[1..] + fs);
    assert es + fs == [es[0]] + (es[1..] + fs);
  }

  lemma {:induction false} RunAppend(w: World, es: seq<Event>, fs: seq<Event>)
    requires IsRun(w, es) && IsRun(Run(w, es), fs)
    ensures IsRun(w, es + fs) && Run(w, es + fs) == Run(Run(w, es), fs)
    decreases |es|
  {
    if es == [] {
      assert es + fs == fs;
    } else {
      RunAppend(Apply(w, es[0]), es[1..], fs);
      AppendToRest(w, es, fs);
    }
  }

  lemma OneMore(w: World, es: seq<Event>, e: Event)
    requires IsRun(w, es) && Legal(Run(w, es), e)
    ensures IsRun(w, es + [e]) && Run(w, es + [e]) == Apply(Run(w, es), e)
  {
    OneStep(Run(w, es), e);
    RunAppend(w, es, [e]);
  }

  /** The calls of one finalisation, with nothing in between. */
  const FINALISATION: seq<Event> := [UploadRow] + [UploadBlob] + [UploadContent] + [UploadNames]

  /** Drive has answered this upload, and nothing was stored to the file
      meanwhile. */
  predicate Undisturbed(w: World)
    requires w.up.Sent?
  {
    && !w.outdated && FromDrive(w.up.info)
    && if IsPending(w.up.id) then !Dirty(w.client.rows, w.up.info.id) else w.up.info.id == w.up.id
  }

  lemma RowAndBlob(w: World)
    requires At(w, Answered)
    ensures IsRun(w, [UploadRow] + [UploadBlob])
    ensures var r := Run(w, [UploadRow] + [UploadBlob]);
            && r.client == CommitBlob(CommitRow(w.client, w.up.id, w.up.info), w.up.id, w.up.info)
            && r.up == w.up.(stage := BlobDone) && r.drive == w.drive && r.issued == w.issued
            && (Undisturbed(w) ==> r.owed == Promote(w.owed, w.up.id, w.up.info.id))
            && (forall f :: f != w.up.id && f != w.up.info.id ==> Find(r.owed, f) == Find(w.owed, f))
  {
    OneStep(w, UploadRow);
    OneMore(w, [UploadRow], UploadBlob);
  }

  lemma ContentAndNames(w: World)
    requires At(w, BlobDone)
    ensures IsRun(w, [UploadContent] + [UploadNames])
    ensures var r := Run(w, [UploadContent] + [UploadNames]);
            && r.client == CommitNames(CommitContent(w.client, w.up.id, w.up.info), w.up.id, w.up.parent, w.up.info)
            && r.up.Idle? && r.drive == w.drive && r.issued == w.issued
            && (w.up.id !in w.owed || !Dirty(w.client.rows, w.up.id) ==> r.owed == w.owed)
            && (forall f :: f != w.up.id ==> Find(r.owed, f) == Find(w.owed, f))
  {
    OneStep(w, UploadContent);
    OneMore(w, [UploadContent], UploadNames);
  }

  lemma FinalisationRuns(w: World)
    requires At(w, Answered)
    ensures IsRun(w, FINALISATION)
    ensures var r := Run(w, FINALISATION);
            && r.client == Commit(w.client, w.up.id, w.up.parent, w.up.info)
            && r.up.Idle? && r.drive == w.drive && r.issued == w.issued
            && (Undisturbed(w) ==> r.owed == Promote(w.owed, w.up.id, w.up.info.id))
            && (forall f :: f != w.up.id && f != w.up.info.id ==> Find(r.owed, f) == Find(w.owed, f))
  {
    var early, late := [UploadRow] + [UploadBlob], [UploadContent] + [UploadNames];
    RowAndBlob(w);
    ContentAndNames(Run(w, early));
    RunAppend(w, early, late);
    CommitInParts(w.client, w.up.id, w.up.parent, w.up.info);
    assert early + late == FINALISATION;
  }
}
