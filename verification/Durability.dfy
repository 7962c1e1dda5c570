/** No dirty bytes are lost: once a local modification with content has been
    stored, those bytes stay in the durable tiers until Drive holds them. */
module Durability {
  import opened Basics
  import opened ContentTiers
  import opened Names
  import opened Client
  import opened ClientRun

  /** Exactly `content` survives a crash under this key, and RAM agrees. */
  predicate Holds(slot: Slot, content: Bytes) {
    && (slot.moka.Some? ==> slot.moka.value == content)
    && (if slot.blob.Some? then slot.blob.value == content else slot.disk == Some(content))
  }

  /** The promise about `id`: while its row is dirty the durable tiers hold the
      bytes, afterwards Drive does. */
  predicate Secure(w: World, id: Id, content: Bytes) {
    if Dirty(w.client.rows, id) then Holds(SlotOf(w.client.tiers, id), content)
    else id in w.drive && w.drive[id] == content
  }

  ghost predicate OwedSecure(w: World) {
    forall id :: id in w.owed ==> FileId(id) && w.owed[id] != [] && Secure(w, id, w.owed[id])
  }

  /** Dirty rows carry proper ids that Drive knows or that are pending. */
  ghost predicate DirtyKnown(w: World) {
    && (forall id :: Dirty(w.client.rows, id) ==> FileId(id) && (IsPending(id) || id in w.issued))
    && (forall id :: id in w.drive ==> id in w.issued)
  }

  ghost predicate MetadataWellFormed(n: Names) {
    forall id :: id in n.metadata && KnownMd5(n.metadata[id].md5).Some? ==> IsMd5(n.metadata[id].md5.value)
  }

  /** The uploader's copy is what the file is owed, unless it is outdated. */
  predicate Carries(w: World, id: Id, content: Bytes) {
    FileId(id) && (IsPending(id) || id in w.issued) && (!w.outdated && id in w.owed ==> content == w.owed[id])
  }

  predicate Untouched(w: World, id: Id) { id !in w.owed && !Dirty(w.client.rows, id) }

  /** Unless it is outdated, the uploader carries what is owed until the row is
      finalised; Drive has it once it has answered, and a new id is untouched
      until then. */
  ghost predicate UploaderFaithful(w: World) {
    match w.up
    case Idle => true
    case Loaded(id, content) => Carries(w, id, content)
    case Asked(id, content, _) => Carries(w, id, content)
    case Sent(id, content, _, info, stage) =>
      && FileId(id) && FromDrive(info) && info.id in w.issued && (!IsPending(id) ==> info.id == id)
      && (stage == Answered && !w.outdated ==>
            && (id in w.owed ==> content == w.owed[id]) && Find(w.drive, info.id) == Some(content)
            && (IsPending(id) ==> Untouched(w, info.id)))
    case Refused(_, _) => true
  }

  ghost predicate Inv(w: World) {
    OwedSecure(w) && DirtyKnown(w) && MetadataWellFormed(w.client.names) && UploaderFaithful(w)
  }

  // ── What each operation leaves alone ──

  /** The content and dirtiness of one file are the same in both states. */
  predicate SameFile(c: Client, d: Client, f: Id) {
    SlotOf(c.tiers, f) == SlotOf(d.tiers, f) && Dirty(c.rows, f) == Dirty(d.rows, f)
  }

  lemma WriteFrame(c: Client, id: Id, content: Bytes, parent: Id, name: string)
    ensures var d := WriteLocalDirty(c, id, content, parent, name);
            && Dirty(d.rows, id) && Holds(SlotOf(d.tiers, id), content)
            && (forall f :: f != id ==> SameFile(c, d, f))
            && (MetadataWellFormed(c.names) ==> MetadataWellFormed(d.names))
  {
    StoreFrame(c.tiers, id, content);
  }

  /** Finalising a row makes no file dirty and clears the one it is about,
      unless a new file's real id is dirty already. */
  lemma RowFrame(c: Client, id: Id, info: FileInfo)
    requires if IsPending(id) then !IsPending(info.id) else info.id == id
    ensures var d := CommitRow(c, id, info);
            && Dirty(d.rows, info.id) == (IsPending(id) && Dirty(c.rows, info.id))
            && (forall f :: f != id && f != info.id ==> Dirty(d.rows, f) == Dirty(c.rows, f))
            && (forall f :: Dirty(d.rows, f) ==> Dirty(c.rows, f))
  {
  }

  /** Moving content touches no other file than the swept ones. */
  lemma SweptFrame(w: World, e: Event, f: Id)
    requires Legal(w, e) && (e.UploadBlob? || e.UploadContent?) && FromDrive(w.up.info)
    requires f !in Swept(w, e) && FileId(f)
    ensures SlotOf(Apply(w, e).client.tiers, f) == SlotOf(w.client.tiers, f)
  {
  }

  lemma ChangeDirt(c: Client, ch: Change)
    ensures var rows := ApplyChange(c, ch).rows;
            !Dirty(rows, ch.id) && forall f :: f != ch.id ==> Dirty(rows, f) == Dirty(c.rows, f)
  {
  }

  lemma ChangeMetadata(c: Client, ch: Change)
    requires MetadataWellFormed(c.names) && (ch.file.Some? ==> FromDrive(ch.file.value))
    ensures MetadataWellFormed(ApplyChange(c, ch).names)
  {
  }

  lemma ChangeSlots(c: Client, ch: Change, f: Id)
    requires MetadataWellFormed(c.names) && f != ch.id && !IsMd5(f)
    ensures SlotOf(ApplyChange(c, ch).tiers, f) == SlotOf(c.tiers, f)
  {
    assert CacheKey(c, ch.id) != f;
  }

  lemma ChangeFrame(c: Client, ch: Change)
    requires MetadataWellFormed(c.names) && (ch.file.Some? ==> FromDrive(ch.file.value))
    ensures var d := ApplyChange(c, ch);
            && !Dirty(d.rows, ch.id)
            && (forall f :: f != ch.id && !IsMd5(f) ==> SameFile(c, d, f))
            && MetadataWellFormed(d.names)
  {
    ChangeDirt(c, ch);
    ChangeMetadata(c, ch);
    forall f | f != ch.id && !IsMd5(f) ensures SameFile(c, ApplyChange(c, ch), f) {
      ChangeSlots(c, ch, f);
    }
  }

  // ── The invariant over every step ──

  lemma FlushKeeps(w: World, e: Event)
    requires Inv(w) && Legal(w, e) && e.Flush?
    ensures Inv(Apply(w, e))
  {
    StoreFrame(w.client.tiers, e.id, e.content);
  }

  lemma WriteKeeps(w: World, id: Id, content: Bytes, parent: Id, name: string)
    requires Inv(w) && LocalStore(w, id)
    ensures Inv(w.(client := WriteLocalDirty(w.client, id, content, parent, name), owed := Owe(w.owed, id, content),
                   outdated := w.outdated || InFlight(w, id)))
  {
    var w' := w.(client := WriteLocalDirty(w.client, id, content, parent, name), owed := Owe(w.owed, id, content),
                 outdated := w.outdated || InFlight(w, id));
    WriteFrame(w.client, id, content, parent, name);
    forall f | f in w'.owed
      ensures FileId(f) && w'.owed[f] != [] && Secure(w', f, w'.owed[f])
    {
      assert f != id ==> SameFile(w.client, w'.client, f);
    }
    forall f | Dirty(w'.client.rows, f)
      ensures FileId(f) && (IsPending(f) || f in w'.issued)
    {
      assert f != id ==> SameFile(w.client, w'.client, f);
    }
    assert UploaderFaithful(w') by {
      if w.up.Sent? {
        assert w.up.info.id != id ==> SameFile(w.client, w'.client, w.up.info.id);
      }
    }
  }

  lemma ReleaseKeeps(w: World, e: Event)
    requires Inv(w) && Legal(w, e) && e.ReleaseHandle?
    ensures Inv(Apply(w, e))
  {
    var c := w.client;
    var parent := if IsPending(e.id) && e.id in c.names.pendingParents then c.names.pendingParents[e.id] else e.parent;
    var name := if IsPending(e.id) && e.id in c.names.metadata then c.names.metadata[e.id].name else e.name;
    WriteKeeps(w, e.id, e.content, parent, name);
  }

  lemma UploadKeeps(w: World, e: Event)
    requires Inv(w) && Legal(w, e) && (e.UploadLoad? || e.UploadAsk? || e.UploadSend? || e.UploadFail?)
    ensures Inv(Apply(w, e))
  {
  }

  lemma RowKeeps(w: World)
    requires Inv(w) && Legal(w, UploadRow)
    ensures Inv(Apply(w, UploadRow))
  {
    RowFrame(w.client, w.up.id, w.up.info);
  }

  /** Moving content touches no dirty file that is owed anything. */
  lemma MoveKeeps(w: World, e: Event, f: Id)
    requires Inv(w) && Legal(w, e) && (e.UploadBlob? || e.UploadContent?) && f in Apply(w, e).owed
    ensures Secure(Apply(w, e), f, w.owed[f])
  {
    if Dirty(w.client.rows, f) {
      SweptFrame(w, e, f);
    }
  }

  lemma MovesKeep(w: World, e: Event)
    requires Inv(w) && Legal(w, e) && (e.UploadBlob? || e.UploadContent?)
    ensures Inv(Apply(w, e))
  {
    var r := Apply(w, e);
    forall f | f in r.owed ensures FileId(f) && r.owed[f] != [] && Secure(r, f, r.owed[f]) {
      MoveKeeps(w, e, f);
    }
  }

  lemma CreatedMetadata(n: Names, p: Id, parent: Id, info: FileInfo)
    requires MetadataWellFormed(n) && FromDrive(info)
    ensures MetadataWellFormed(ReplacePending(n, p, parent, info))
  {
  }

  lemma FinishKeeps(w: World)
    requires Inv(w) && Legal(w, UploadNames)
    ensures Inv(Apply(w, UploadNames))
  {
    CreatedMetadata(w.client.names, w.up.id, w.up.parent, w.up.info);
    assert MetadataWellFormed(StoreMetadata(w.client.names, w.up.info));
  }

  lemma AbandonKeeps(w: World, e: Event)
    requires Inv(w) && Legal(w, e) && (e.UploadRefused? || e.UploadForget?)
    ensures Inv(Apply(w, e))
  {
  }

  lemma DownloadKeeps(w: World, e: Event)
    requires Inv(w) && Legal(w, e) && e.DownloadArrives?
    ensures Inv(Apply(w, e))
  {
    StoreFrame(w.client.tiers, CacheKey(w.client, e.id), e.content);
  }

  lemma FeedKeeps(w: World, ch: Change)
    requires Inv(w) && Legal(w, FeedChange(ch))
    ensures Inv(Apply(w, FeedChange(ch)))
  {
    var w' := Apply(w, FeedChange(ch));
    ChangeFrame(w.client, ch);
    forall f | f in w'.owed
      ensures FileId(f) && w'.owed[f] != [] && Secure(w', f, w'.owed[f])
    {
      assert f != ch.id ==> SameFile(w.client, w'.client, f);
    }
    forall f | Dirty(w'.client.rows, f)
      ensures FileId(f) && (IsPending(f) || f in w'.issued)
    {
      assert Dirty(w.client.rows, f);
    }
    assert UploaderFaithful(w');
  }

  lemma DeleteKeeps(w: World, e: Event)
    requires Inv(w) && Legal(w, e) && e.Delete?
    ensures Inv(Apply(w, e))
  {
  }

  lemma {:induction false} RegisterWellFormed(n: Names, parent: Id, files: seq<FileInfo>)
    requires MetadataWellFormed(n) && forall f :: f in files ==> FromDrive(f)
    ensures MetadataWellFormed(RegisterAll(n, parent, files))
    decreases |files|
  {
    if files != [] {
      assert files[|files| - 1] in files;
      RegisterWellFormed(n, parent, files[..|files| - 1]);
    }
  }

  /** Operations on the namespace alone, and new handle numbers. */
  lemma NamesFrame(w: World, n: Names, fh: nat)
    requires Inv(w) && MetadataWellFormed(n)
    ensures Inv(w.(client := w.client.(names := n), nextFh := fh))
  {
  }

  lemma RenamedDirt(c: Client, from: Id, to: Id, p: Id, name: string)
    ensures var d := Rename(c, from, to, p, name);
            d.tiers == c.tiers && forall f :: Dirty(d.rows, f) == Dirty(c.rows, f)
    ensures MetadataWellFormed(c.names) ==> MetadataWellFormed(Rename(c, from, to, p, name).names)
  {
  }

  lemma RenameKeeps(w: World, e: Event)
    requires Inv(w) && Legal(w, e) && e.RenamePlaceholder?
    ensures Inv(Apply(w, e))
  {
    RenamedDirt(w.client, e.from, e.to, e.id, e.name);
  }

  lemma NamesKeep(w: World, e: Event)
    requires Inv(w) && Legal(w, e)
    requires e.CreateFile? || e.ListingArrives? || e.Invalidate? || e.MetadataArrives?
    ensures Inv(Apply(w, e))
  {
    var r := Apply(w, e);
    if e.ListingArrives? {
      RegisterWellFormed(w.client.names, e.parent, e.files);
    }
    assert MetadataWellFormed(r.client.names);
    NamesFrame(w, r.client.names, r.nextFh);
    assert r == w.(client := w.client.(names := r.client.names), nextFh := r.nextFh);
  }

  lemma EvictionKeeps(w: World, e: Event)
    requires Inv(w) && Legal(w, e)
    requires e.OpenHandle? || e.ReadContent? || e.RamEviction? || e.DiskEviction?
    ensures Inv(Apply(w, e))
  {
  }

  lemma RestartKeeps(w: World, e: Event)
    requires Inv(w) && Legal(w, e) && e.CrashAndRestart?
    ensures Inv(Apply(w, e))
  {
    RestoredIsEmpty(e.rowOrder);
  }

  lemma Step(w: World, e: Event)
    requires Inv(w) && Legal(w, e)
    ensures Inv(Apply(w, e))
  {
    if e.Flush? {
      FlushKeeps(w, e);
    } else if e.ReleaseHandle? {
      ReleaseKeeps(w, e);
    } else if e.DownloadArrives? {
      DownloadKeeps(w, e);
    } else if e.FeedChange? {
      FeedKeeps(w, e.change);
    } else if e.Delete? {
      DeleteKeeps(w, e);
    } else if e.UploadLoad? || e.UploadAsk? || e.UploadSend? || e.UploadFail? {
      UploadKeeps(w, e);
    } else if e.UploadRow? {
      RowKeeps(w);
    } else if e.UploadBlob? || e.UploadContent? {
      MovesKeep(w, e);
    } else if e.UploadNames? {
      FinishKeeps(w);
    } else if e.UploadRefused? || e.UploadForget? {
      AbandonKeeps(w, e);
    } else if e.RenamePlaceholder? {
      RenameKeeps(w, e);
    } else if e.CreateFile? || e.ListingArrives? || e.Invalidate? || e.MetadataArrives? {
      NamesKeep(w, e);
    } else if e.CrashAndRestart? {
      RestartKeeps(w, e);
    } else {
      EvictionKeeps(w, e);
    }
  }

  lemma {:induction false} InvRun(w: World, es: seq<Event>)
    requires Inv(w) && IsRun(w, es)
    ensures Inv(Run(w, es))
    decreases |es|
  {
    if es != [] {
      Step(w, es[0]);
      InvRun(Apply(w, es[0]), es[1..]);
    }
  }

  /** Main result: after any run from the first start, everything owed is
      either dirty with exactly those bytes in the durable tiers, where reads
      find them, or on Drive. */
  lemma NoDirtyBytesLost(ramMax: nat, drive: map<Id, Bytes>, es: seq<Event>)
    requires IsRun(FirstStart(ramMax, drive), es)
    ensures var w := Run(FirstStart(ramMax, drive), es);
            forall id :: id in w.owed ==>
              && Secure(w, id, w.owed[id])
              && (Dirty(w.client.rows, id) ==> Read(w.client, id) == Some(w.owed[id]))
  {
    InvRun(FirstStart(ramMax, drive), es);
  }

  // ── The same without the bookkeeping ──

  /** The event stores to the file or deletes it, Drive refuses it, a download
      or a change of the feed comes over its unsent bytes, or an upload that
      was loaded before the file's last store reaches Drive after its flag is
      gone, finalises its row, or moves its content. */
  predicate Touches(w: World, e: Event, id: Id) {
    match e
    case Flush(f, _) => f == id
    case ReleaseHandle(f, _, _, _) => f == id
    case Delete(f) => f == id
    case DownloadArrives(f, _) => f == id && Dirty(w.client.rows, f)
    case FeedChange(ch) => ch.id == id && Dirty(w.client.rows, id)
    case UploadRefused => w.up.Asked? && w.up.id == id
    case UploadSend(_) => w.up.Asked? && w.up.id == id && w.outdated && !Dirty(w.client.rows, id)
    case UploadRow => w.up.Sent? && w.up.id == id && w.outdated
    case UploadBlob => id in Swept(w, e) && Dirty(w.client.rows, id)
    case UploadContent => id in Swept(w, e) && Dirty(w.client.rows, id)
    case _ => false
  }

  /** Nothing touches the file. */
  ghost predicate LeftAlone(w: World, es: seq<Event>, id: Id)
    requires IsRun(w, es)
    decreases |es|
  {
    es == [] || (!Touches(w, es[0], id) && LeftAlone(Apply(w, es[0]), es[1..], FollowStep(w, es[0], id)))
  }

  lemma OwedUntouched(w: World, e: Event, id: Id)
    requires Legal(w, e) && !Touches(w, e, id) && !e.UploadRow?
    ensures Find(Apply(w, e).owed, id) == Find(w.owed, id)
  {
  }

  lemma OwedPromoted(w: World, id: Id)
    requires Inv(w) && Legal(w, UploadRow) && id in w.owed && !Touches(w, UploadRow, id)
    ensures Find(Apply(w, UploadRow).owed, FollowStep(w, UploadRow, id)) == Some(w.owed[id])
  {
  }

  lemma OwedStays(w: World, e: Event, id: Id)
    requires Inv(w) && Legal(w, e) && !Touches(w, e, id) && id in w.owed
    ensures Find(Apply(w, e).owed, FollowStep(w, e, id)) == Some(w.owed[id])
  {
    if e.UploadRow? {
      OwedPromoted(w, id);
    } else {
      OwedUntouched(w, e, id);
    }
  }

  lemma {:induction false} OwedFollows(w: World, es: seq<Event>, id: Id, content: Bytes)
    requires Inv(w) && IsRun(w, es) && LeftAlone(w, es, id)
    requires id in w.owed && w.owed[id] == content
    ensures var w' := Run(w, es);
            var f := Follow(w, es, id);
            Inv(w') && f in w'.owed && w'.owed[f] == content
    decreases |es|
  {
    if es != [] {
      Step(w, es[0]);
      OwedStays(w, es[0], id);
      OwedFollows(Apply(w, es[0]), es[1..], FollowStep(w, es[0], id), content);
    }
  }

  /** Main result, seen from one write: bytes released to a file survive every
      later run that does not touch the file, crashes included. */
  lemma LastWriteSurvives(w: World, id: Id, content: Bytes, name: string, parent: Id, es: seq<Event>)
    requires Inv(w) && content != [] && Legal(w, ReleaseHandle(id, content, name, parent))
    requires var w1 := Apply(w, ReleaseHandle(id, content, name, parent));
             IsRun(w1, es) && LeftAlone(w1, es, id)
    ensures var w1 := Apply(w, ReleaseHandle(id, content, name, parent));
            Secure(Run(w1, es), Follow(w1, es, id), content)
  {
    Step(w, ReleaseHandle(id, content, name, parent));
    OwedFollows(Apply(w, ReleaseHandle(id, content, name, parent)), es, id, content);
  }

  // ── What takes bytes out of the promise ──

  /** A creation that Drive answers with 404 gives its file's bytes up, unless
      Drive happens to hold them under that id. */
  lemma RefusalCost(w: World, content: Bytes)
    requires Legal(w, UploadRefused)
    ensures Secure(Apply(w, UploadRefused), w.up.id, content) <==> Find(w.drive, w.up.id) == Some(content)
  {
  }

  /** A change of the feed clears a dirty file's flag: its bytes are safe
      exactly when Drive already holds them. */
  lemma ChangeOverDirty(w: World, ch: Change, content: Bytes)
    requires Legal(w, FeedChange(ch)) && Dirty(w.client.rows, ch.id)
    ensures Secure(Apply(w, FeedChange(ch)), ch.id, content) <==> Find(w.drive, ch.id) == Some(content)
  {
  }

  /** A download that arrives for a dirty file replaces its bytes. */
  lemma DownloadOverDirty(w: World, id: Id, bytes: Bytes, content: Bytes)
    requires Legal(w, DownloadArrives(id, bytes)) && Dirty(w.client.rows, id)
    ensures Secure(Apply(w, DownloadArrives(id, bytes)), id, content) <==> bytes == content
  {
  }

  /** A new file that gets the number of a placeholder left from before a crash
      replaces its bytes when it is released. */
  lemma LeftoverOverwritten(c: Client, p: Id, left: Bytes, content: Bytes, name: string, parent: Id)
    requires IsPending(p) && content != []
    ensures Holds(SlotOf(Release(c, p, content, name, parent).tiers, p), left) <==> left == content
  {
  }

  /** A write that lands between an upload's load and its finalisation is
      cleared with the dirty flag.  It is safe exactly when it stored the very
      bytes that were uploaded; first for an update, then for a creation. */
  lemma LateWrite(w: World, content: Bytes, name: string, parent: Id)
    requires At(w, Answered) && !IsPending(w.up.id) && w.up.info.id == w.up.id && FromDrive(w.up.info)
    requires w.up.id in w.drive && w.drive[w.up.id] == w.up.content
    ensures var c := CommitUpdate(Release(w.client, w.up.id, content, name, parent), w.up.id, w.up.info);
            Secure(w.(client := c), w.up.id, content) <==> content == w.up.content
  {
  }

  lemma LateWriteToNewFile(w: World, content: Bytes, name: string, parent: Id)
    requires At(w, Answered) && IsPending(w.up.id) && FromDrive(w.up.info) && content != []
    requires w.up.info.id in w.drive && w.drive[w.up.info.id] == w.up.content && !Dirty(w.client.rows, w.up.info.id)
    ensures var c := CommitCreate(Release(w.client, w.up.id, content, name, parent), w.up.id, w.up.parent, w.up.info);
            Secure(w.(client := c), w.up.info.id, content) <==> content == w.up.content
  {
  }

  /** A late small write also ends up under the checksum of the bytes that
      were uploaded, where every clean file with that checksum reads it. */
  lemma LateWriteSpreads(w: World, content: Bytes, name: string, parent: Id, g: Id)
    requires w.up.Sent? && !IsPending(w.up.id) && FromDrive(w.up.info) && w.up.info.id == w.up.id
    requires KnownMd5(w.up.info.md5).Some? && FileId(w.up.id) && |content| <= w.client.tiers.ramMax
    requires g != w.up.id && CacheKey(w.client, g) == w.up.info.md5.value
    ensures var c := CommitUpdate(Release(w.client, w.up.id, content, name, parent), w.up.id, w.up.info);
            Read(c, w.up.id) == Read(c, g) == Some(content)
  {
  }

  /** The rest of a finalisation after its row is done. */
  function Finished(c: Client, id: Id, parent: Id, info: FileInfo): Client {
    CommitNames(CommitContent(CommitBlob(c, id, info), id, info), id, parent, info)
  }

  const REST: seq<Event> := [UploadBlob] + [UploadContent] + [UploadNames]

  lemma RestRuns(w: World)
    requires At(w, RowDone)
    ensures IsRun(w, REST)
    ensures Run(w, REST).client == Finished(w.client, w.up.id, w.up.parent, w.up.info) && Run(w, REST).drive == w.drive
  {
    OneStep(w, UploadBlob);
    OneMore(w, [UploadBlob], UploadContent);
    OneMore(w, [UploadBlob] + [UploadContent], UploadNames);
  }

  // ── What a restart keeps ──

  /** A file that is temporary, named by a row's checksum, or dirty. */
  ghost predicate Kept(rows: map<Id, Row>, k: Key) {
    || (4 <= |k| && k[|k| - 4..] == ".tmp")
    || (k != "" && exists id :: id in rows && rows[id].md5 == Some(k))
    || (k in rows && rows[k].dirty)
  }

  lemma KeptByGc(rows: map<Id, Row>, k: Key)
    ensures Kept(rows, k) <==> GcKeeps(rows, k)
  {
  }

  /** A crash loses RAM and the namespace, and collection every file that is
      neither temporary, nor named by a row's checksum, nor dirty.  Everything
      in the tables stays. */
  lemma CrashKeepsTables(w: World, order: seq<(Id, nat)>)
    requires Legal(w, CrashAndRestart(order))
    ensures var r, t := Apply(w, CrashAndRestart(order)), w.client.tiers;
            && r.client.rows == w.client.rows && r.client.tiers.blobs == t.blobs && r.client.tiers.moka == map[]
            && r.client.names.metadata == map[] && r.client.names.dirCache == map[]
            && r.client.names.nameIndex == map[] && r.client.names.pendingParents == map[]
            && r.up.Idle? && r.nextFh == 1 && r.drive == w.drive
            && forall k :: Find(r.client.tiers.disk, k) == if Kept(w.client.rows, k) then Find(t.disk, k) else None
  {
    RestoredIsEmpty(order);
    forall k ensures Kept(w.client.rows, k) <==> GcKeeps(w.client.rows, k) {
      KeptByGc(w.client.rows, k);
    }
  }

  /** What a row's checksum protects. */
  lemma ChecksumKept(d: Client, order: seq<(Id, nat)>, m: Key)
    requires IsMd5(m) && !Dirty(d.rows, m)
    ensures Restart(d, order).tiers.blobs == d.tiers.blobs
    ensures Find(Restart(d, order).tiers.disk, m) ==
            if exists x :: x in d.rows && d.rows[x].md5 == Some(m) then Find(d.tiers.disk, m) else None
  {
    assert m[|m| - 4] != ".tmp"[0];
    assert !EndsWith(m, ".tmp");
  }

  lemma FinalisedRows(w: World)
    requires Inv(w) && At(w, Answered) && KnownMd5(w.up.info.md5).Some? && w.up.id in w.client.rows
    ensures var rows, m := Commit(w.client, w.up.id, w.up.parent, w.up.info).rows, w.up.info.md5.value;
            && !Dirty(rows, m)
            && if IsPending(w.up.id) && w.up.info.id in w.client.rows then rows == w.client.rows
               else w.up.info.id in rows && rows[w.up.info.id].md5 == Some(m)
  {
    var m := w.up.info.md5.value;
    assert IsMd5(m) && !FileId(m);
    assert !Dirty(w.client.rows, m) && m != w.up.info.id;
    RowFrame(w.client, w.up.id, w.up.info);
    CommitInParts(w.client, w.up.id, w.up.parent, w.up.info);
  }

  /** The row of a finalised upload protects the content under its checksum
      from collection.  If a creation's real id had a row already, that row
      stays, and the content is collected unless some row names the checksum. */
  lemma UploadedSurvivesRestart(w: World, order: seq<(Id, nat)>)
    requires Inv(w) && At(w, Answered) && KnownMd5(w.up.info.md5).Some? && w.up.id in w.client.rows
    requires Enumerates(order, Commit(w.client, w.up.id, w.up.parent, w.up.info).rows)
    ensures var d, m := Commit(w.client, w.up.id, w.up.parent, w.up.info), w.up.info.md5.value;
            var taken := IsPending(w.up.id) && w.up.info.id in w.client.rows;
            && Find(Restart(d, order).tiers.blobs, m) == Find(d.tiers.blobs, m)
            && Find(Restart(d, order).tiers.disk, m) ==
               if taken && forall x :: x in w.client.rows ==> w.client.rows[x].md5 != Some(m) then None
               else Find(d.tiers.disk, m)
  {
    var d, m := Commit(w.client, w.up.id, w.up.parent, w.up.info), w.up.info.md5.value;
    FinalisedRows(w);
    ChecksumKept(d, order, m);
  }

  /** A write between an update's calls, after the row and before the content
      has moved, is moved away with it: the file stays dirty but nothing is
      left to upload, unless Drive sent no checksum. */
  lemma MidCommitWrite(w: World, content: Bytes, name: string, parent: Id)
    requires At(w, RowDone) && !IsPending(w.up.id) && w.up.info.id == w.up.id && FromDrive(w.up.info) && FileId(w.up.id)
    ensures var id, info := w.up.id, w.up.info;
            var d := Finished(WriteLocalDirty(w.client, id, content, parent, name), id, w.up.parent, info);
            && Dirty(d.rows, id)
            && (Secure(w.(client := d), id, content) <==> KnownMd5(info.md5).None?)
            && (KnownMd5(info.md5).Some? ==> Payload(d, id) == None)
  {
    var id, info := w.up.id, w.up.info;
    StoreFrame(w.client.tiers, id, content);
    var c := WriteLocalDirty(w.client, id, content, parent, name);
    var d := Finished(c, id, w.up.parent, info);
    assert CacheKey(d, id) == id;
    if KnownMd5(info.md5).Some? {
      assert SlotOf(d.tiers, id) == Slot(None, None, None);
    } else {
      assert SlotOf(d.tiers, id) == SlotOf(c.tiers, id);
    }
  }

  /** The same after the BLOB has moved. */
  lemma MidMoveWrite(w: World, content: Bytes, name: string, parent: Id)
    requires At(w, BlobDone) && !IsPending(w.up.id) && w.up.info.id == w.up.id
    requires FromDrive(w.up.info) && FileId(w.up.id)
    ensures var id, info := w.up.id, w.up.info;
            var d := CommitNames(CommitContent(WriteLocalDirty(w.client, id, content, parent, name), id, info),
                                 id, w.up.parent, info);
            && Dirty(d.rows, id)
            && (Secure(w.(client := d), id, content) <==> KnownMd5(info.md5).None?)
            && (KnownMd5(info.md5).Some? ==> Payload(d, id) == None)
  {
    var id, info := w.up.id, w.up.info;
    StoreFrame(w.client.tiers, id, content);
    var c := WriteLocalDirty(w.client, id, content, parent, name);
    var d := CommitNames(CommitContent(c, id, info), id, w.up.parent, info);
    assert CacheKey(d, id) == id;
    if KnownMd5(info.md5).Some? {
      assert SlotOf(d.tiers, id) == Slot(None, None, None);
    } else {
      assert SlotOf(d.tiers, id) == SlotOf(c.tiers, id);
    }
  }

  /** Once the content has moved, a write is safe again. */
  lemma LastCallWrite(w: World, content: Bytes, name: string, parent: Id)
    requires At(w, ContentDone) && !IsPending(w.up.id) && w.up.info.id == w.up.id
    ensures var id, info := w.up.id, w.up.info;
            var d := CommitNames(WriteLocalDirty(w.client, id, content, parent, name), id, w.up.parent, info);
            Secure(w.(client := d), id, content)
  {
    StoreFrame(w.client.tiers, w.up.id, content);
  }

  /** A release to a placeholder whose row has been finalised makes a new row
      that nothing leads to: the last call takes its metadata and its inode.
      Its bytes are safe exactly when they are neither moved to the checksum
      nor, being small, to the real id, unless a disk file holds them. */
  lemma MidCommitWriteToNewFile(w: World, content: Bytes, name: string, parent: Id)
    requires At(w, RowDone) && IsPending(w.up.id) && FromDrive(w.up.info) && FileId(w.up.id) && content != []
    ensures var p, info := w.up.id, w.up.info;
            var d := Finished(Release(w.client, p, content, name, parent), p, w.up.parent, info);
            && Dirty(d.rows, p) && p !in d.names.metadata && p !in d.names.idToIno && p !in d.names.pendingParents
            && (KnownMd5(info.md5).Some? ==> Payload(d, p) == None)
            && (Secure(w.(client := d), p, content) <==>
                  KnownMd5(info.md5).None?
                  && (|content| > d.tiers.ramMax || Find(w.client.tiers.disk, p) == Some(content)
                      || (if info.md5.Some? then info.md5.value else info.id) in w.client.tiers.blobs))
  {
    var p, info := w.up.id, w.up.info;
    var c := Release(w.client, p, content, name, parent);
    var d := Finished(c, p, w.up.parent, info);
    StoreFrame(w.client.tiers, p, content);
    if KnownMd5(info.md5).Some? {
      assert SlotOf(d.tiers, p) == Slot(None, None, None);
    } else {
      assert d.tiers.blobs == FinalizeBlobs(c.tiers.blobs, p, info.id, info.md5);
    }
  }

  /** A large write to a new file's real id, before the placeholder's BLOB
      moves there, is hidden by it. */
  lemma CoveredWrite(w: World, content: Bytes, name: string, parent: Id)
    requires At(w, RowDone) && IsPending(w.up.id) && FromDrive(w.up.info) && w.up.info.md5.None?
    ensures var p, id, t := w.up.id, w.up.info.id, w.client.tiers;
            var d := CommitBlob(WriteLocalDirty(w.client, id, content, parent, name), p, w.up.info);
            Secure(w.(client := d), id, content) <==>
              |content| <= t.ramMax || p !in t.blobs || t.blobs[p] == content
  {
    StoreFrame(w.client.tiers, w.up.info.id, content);
  }

  /** Until the last call a read of the file still goes to the checksum its
      metadata had before. */
  lemma MidCommitRead(w: World, e: Event)
    requires Legal(w, e) && (e.UploadRow? || e.UploadBlob? || e.UploadContent?)
    requires !IsPending(w.up.id) && w.up.id in w.client.names.metadata
    requires KnownMd5(w.client.names.metadata[w.up.id].md5).Some?
    requires !e.UploadRow? ==> !Dirty(w.client.rows, w.up.id)
    ensures CacheKey(Apply(w, e).client, w.up.id) == w.client.names.metadata[w.up.id].md5.value
  {
  }
}
