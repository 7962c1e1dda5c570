/** What a reader sees across a local write and across an upload. */
module Reads {
  import opened Basics
  import opened ContentTiers
  import opened Names
  import opened Client
  import opened ClientRun
  import opened Durability

  /** A dirty write shows its bytes to every reader of the file and changes no
      other file's read, whatever bytes the file shared before. */
  lemma WriteIsolated(c: Client, f: Id, content: Bytes, parent: Id, name: string)
    requires MetadataWellFormed(c.names) && !IsMd5(f)
    ensures var d := WriteLocalDirty(c, f, content, parent, name);
            Read(d, f) == Some(content) && forall g :: g != f ==> Read(d, g) == Read(c, g)
  {
    var d := WriteLocalDirty(c, f, content, parent, name);
    StoreFrame(c.tiers, f, content);
    forall g | g != f
      ensures Read(d, g) == Read(c, g)
    {
      assert CacheKey(d, g) == CacheKey(c, g) != f;
      assert SlotOf(d.tiers, CacheKey(c, g)) == SlotOf(c.tiers, CacheKey(c, g));
    }
  }

  // ── Uploads ──

  /** The checksum Drive computes, taken to be free of collisions. */
  ghost predicate CollisionFree(hash: Bytes -> Key) {
    forall a, b :: hash(a) == hash(b) ==> a == b
  }

  /** Content kept under a checksum has that checksum. */
  ghost predicate Addressed(latest: map<Key, Bytes>, hash: Bytes -> Key) {
    forall k :: k in latest && IsMd5(k) ==> hash(latest[k]) == k
  }

  /** Drive answers an upload with the checksum of what it received. */
  predicate Answers(info: FileInfo, uploaded: Bytes, hash: Bytes -> Key) {
    FromDrive(info) && (KnownMd5(info.md5).Some? ==> info.md5 == Some(hash(uploaded)))
  }

  /** A read that changes at most from a miss to the uploaded bytes. */
  predicate SameOrFilled(before: Option<Bytes>, after: Option<Bytes>, uploaded: Bytes) {
    after == before || (before == None && after == Some(uploaded))
  }

  /** Everything an upload starts from. */
  ghost predicate Uploading(c: Client, id: Id, up: Bytes, latest: map<Key, Bytes>, hash: Bytes -> Key) {
    && Represents(c.tiers, latest) && Addressed(latest, hash) && CollisionFree(hash)
    && MetadataWellFormed(c.names)
    && FileId(id) && Dirty(c.rows, id) && Payload(c, id) == Some(up)
  }

  /** Under the tiers' representation, an upload takes the last stored bytes
      unless an empty copy hides a disk file. */
  lemma PayloadIsLatest(c: Client, id: Id, up: Bytes, latest: map<Key, Bytes>, hash: Bytes -> Key)
    requires Uploading(c, id, up, latest, hash)
    ensures id in latest
    ensures StaleOverride(c, id) ==> latest[id] == [] && up != []
    ensures !StaleOverride(c, id) ==> latest[id] == up
  {
    RepresentsReads(c.tiers, latest);
    assert CacheKey(c, id) == id;
  }

  /** Moving the payload to its checksum keeps the representation and fills
      that key with the uploaded bytes. */
  lemma MoveToChecksum(t: Tiers, latest: map<Key, Bytes>, from: Key, up: Bytes, hash: Bytes -> Key)
    requires Represents(t, latest) && Addressed(latest, hash) && CollisionFree(hash)
    requires Lookup(t, from) == Some(up) && !IsMd5(from) && IsMd5(hash(up))
    ensures var m := hash(up);
            && Represents(Migrate(t, from, m), MoveKey(latest, from, m))
            && Addressed(MoveKey(latest, from, m), hash)
            && Lookup(Migrate(t, from, m), m) == Some(up)
            && (Lookup(t, m).Some? ==> Lookup(t, m) == Some(up))
  {
    var m := hash(up);
    RepresentsReads(t, latest);
    RepresentsStep(t, latest, MigrateTo(from, m));
    RepresentsReads(Migrate(t, from, m), MoveKey(latest, from, m));
    MigrateCarries(t, from, m);
    assert m in latest ==> latest[m] == up;
  }

  /** Other keys read as before, except that the target may be filled. */
  lemma ElsewhereSame(t: Tiers, from: Key, m: Key, k: Key, up: Bytes)
    requires k != from
    requires Lookup(Migrate(t, from, m), m) == Some(up) && (Lookup(t, m).Some? ==> Lookup(t, m) == Some(up))
    ensures SameOrFilled(Lookup(t, k), Lookup(Migrate(t, from, m), k), up)
  {
    MigrateFrame(t, from, m);
    assert k != m ==> SlotOf(Migrate(t, from, m), k) == SlotOf(t, k);
  }

  lemma UpdateKeys(c: Client, id: Id, info: FileInfo)
    requires FromDrive(info) && info.id == id
    ensures var d := CommitUpdate(c, id, info);
            && CacheKey(d, id) == (match KnownMd5(info.md5) case Some(m) => m case None => id)
            && forall g :: g != id ==> CacheKey(d, g) == CacheKey(c, g)
  {
  }

  lemma UpdateWithChecksum(c: Client, id: Id, info: FileInfo, up: Bytes, latest: map<Key, Bytes>, hash: Bytes -> Key)
    requires Uploading(c, id, up, latest, hash) && !IsPending(id)
    requires Answers(info, up, hash) && info.id == id && KnownMd5(info.md5).Some?
    ensures var d := CommitUpdate(c, id, info);
            && (Read(d, id) == Some(up) <==> !StaleOverride(c, id))
            && (!StaleOverride(c, id) ==>
                 && (forall g :: g != id && !IsMd5(g) ==> SameOrFilled(Read(c, g), Read(d, g), up))
                 && Represents(d.tiers, MoveKey(latest, id, hash(up)))
                 && Addressed(MoveKey(latest, id, hash(up)), hash))
  {
    var d := CommitUpdate(c, id, info);
    var m := info.md5.value;
    PayloadIsLatest(c, id, up, latest, hash);
    RepresentsReads(c.tiers, latest);
    UpdateKeys(c, id, info);
    if StaleOverride(c, id) {
      assert id in c.tiers.blobs && m !in c.tiers.blobs;
    } else {
      MoveToChecksum(c.tiers, latest, id, up, hash);
      forall g | g != id && !IsMd5(g)
        ensures SameOrFilled(Read(c, g), Read(d, g), up)
      {
        assert CacheKey(c, g) != id;
        ElsewhereSame(c.tiers, id, m, CacheKey(c, g), up);
      }
    }
  }

  /** Main result: an updated file reads its uploaded bytes exactly when no
      empty copy hid its disk file, and then no other file's read changes
      except that a miss on the same checksum may become a hit.  The tiers
      still represent a content-addressed map. */
  lemma UpdatePreservesReads(c: Client, id: Id, info: FileInfo, up: Bytes, latest: map<Key, Bytes>, hash: Bytes -> Key)
    requires Uploading(c, id, up, latest, hash) && !IsPending(id)
    requires Answers(info, up, hash) && info.id == id
    ensures var d := CommitUpdate(c, id, info);
            && (Read(d, id) == Some(up) <==> !StaleOverride(c, id))
            && (!StaleOverride(c, id) ==>
                 && (forall g :: g != id && !IsMd5(g) ==> SameOrFilled(Read(c, g), Read(d, g), up))
                 && (exists next :: Represents(d.tiers, next) && Addressed(next, hash)))
  {
    match KnownMd5(info.md5)
    case None =>
      PayloadIsLatest(c, id, up, latest, hash);
      RepresentsReads(c.tiers, latest);
      UpdateKeys(c, id, info);
      assert Read(c, id) == Some(latest[id]);
      assert Represents(CommitUpdate(c, id, info).tiers, latest);
    case Some(_) =>
      UpdateWithChecksum(c, id, info, up, latest, hash);
  }

  /** Finalising the BLOB row first makes no difference to the migration, even
      when the `UPDATE` fails because the checksum already has a row. */
  lemma FinalizeThenMigrate(t: Tiers, p: Key, m: Key)
    requires p != m
    ensures forall id :: Migrate(t.(blobs := FinalizeBlobs(t.blobs, p, id, Some(m))), p, m) == Migrate(t, p, m)
  {
  }

  /** A creation, before the server's checksum matters. */
  ghost predicate Creating(c: Client, p: Id, info: FileInfo, up: Bytes, latest: map<Key, Bytes>, hash: Bytes -> Key) {
    && Uploading(c, p, up, latest, hash) && IsPending(p)
    && Answers(info, up, hash) && info.id !in c.rows && info.id !in latest
  }

  /** The files whose reads a creation must not disturb. */
  predicate Bystander(g: Id, p: Id, id: Id) { g != p && g != id && g != "" && !IsMd5(g) }

  lemma CreateKeys(c: Client, p: Id, parent: Id, info: FileInfo)
    requires info.id !in c.rows && RealId(info.id)
    ensures var d := CommitCreate(c, p, parent, info);
            && CacheKey(d, info.id) == (match KnownMd5(info.md5) case Some(m) => m case None => info.id)
            && forall g :: g != p && g != info.id ==> CacheKey(d, g) == CacheKey(c, g)
  {
  }

  /** A creation answered without a checksum leaves its content behind, except
      that a BLOB moves to the real id if that key is free. */
  function LatestCreated(t: Tiers, latest: map<Key, Bytes>, p: Id, info: FileInfo): map<Key, Bytes> {
    if info.md5.None? && p in t.blobs && info.id !in t.blobs then (latest - {p})[info.id := t.blobs[p]]
    else latest - {p}
  }

  lemma CreatedStands(t: Tiers, latest: map<Key, Bytes>, p: Id, info: FileInfo, k: Key)
    requires KnownMd5(info.md5).None? && k != p && k != "" && p != info.id
    requires Stands(SlotOf(t, p), Find(latest, p), t.ramMax) && Stands(SlotOf(t, k), Find(latest, k), t.ramMax)
    ensures var d := t.(blobs := FinalizeBlobs(t.blobs, p, info.id, info.md5));
            Stands(SlotOf(d, k), Find(LatestCreated(t, latest, p, info), k), t.ramMax)
  {
  }

  /** The tiers after a creation, apart from the keys it left behind. */
  ghost predicate StandsBeside(t: Tiers, next: map<Key, Bytes>, p: Id) {
    forall k :: k != p && k != "" ==> Stands(SlotOf(t, k), Find(next, k), t.ramMax)
  }

  lemma CreateWithoutChecksum(c: Client, p: Id, parent: Id, info: FileInfo, up: Bytes, latest: map<Key, Bytes>,
                              hash: Bytes -> Key)
    requires Creating(c, p, info, up, latest, hash) && KnownMd5(info.md5).None?
    ensures var d := CommitCreate(c, p, parent, info);
            && (Read(d, info.id) in {None, Some(up)} <==> !StaleOverride(c, p) || info.md5 == Some(""))
            && (forall g :: Bystander(g, p, info.id) ==> Read(d, g) == Read(c, g))
            && StandsBeside(d.tiers, LatestCreated(c.tiers, latest, p, info), p)
            && Addressed(LatestCreated(c.tiers, latest, p, info), hash)
  {
    var d := CommitCreate(c, p, parent, info);
    forall k | k != p && k != ""
      ensures Stands(SlotOf(d.tiers, k), Find(LatestCreated(c.tiers, latest, p, info), k), d.tiers.ramMax)
    {
      RepresentsAt(c.tiers, latest, p);
      RepresentsAt(c.tiers, latest, k);
      CreatedStands(c.tiers, latest, p, info, k);
    }
    PayloadIsLatest(c, p, up, latest, hash);
    CreateKeys(c, p, parent, info);
    assert SlotOf(c.tiers, info.id) == Slot(None, None, None);
    forall g | Bystander(g, p, info.id)
      ensures Read(d, g) == Read(c, g)
    {
      var k := CacheKey(c, g);
      assert k != p && k != info.id && k != "";
      assert SlotOf(d.tiers, k) == SlotOf(c.tiers, k);
    }
  }

  lemma CreateWithChecksum(c: Client, p: Id, parent: Id, info: FileInfo, up: Bytes, latest: map<Key, Bytes>,
                           hash: Bytes -> Key)
    requires Creating(c, p, info, up, latest, hash) && KnownMd5(info.md5).Some?
    ensures var d := CommitCreate(c, p, parent, info);
            && (!StaleOverride(c, p) ==> Read(d, info.id) == Some(up))
            && (StaleOverride(c, p) ==> Read(d, info.id) == Some([]) && up != [])
            && (!StaleOverride(c, p) ==>
                  forall g :: Bystander(g, p, info.id) ==> SameOrFilled(Read(c, g), Read(d, g), up))
            && (!StaleOverride(c, p) ==> Represents(d.tiers, MoveKey(latest, p, hash(up)))
                                         && Addressed(MoveKey(latest, p, hash(up)), hash))
            && (StaleOverride(c, p) ==> forall g :: Bystander(g, p, info.id) ==>
                  Read(d, g) == if CacheKey(c, g) == hash(up) then Some([]) else Read(c, g))
  {
    var d := CommitCreate(c, p, parent, info);
    var m := info.md5.value;
    PayloadIsLatest(c, p, up, latest, hash);
    RepresentsReads(c.tiers, latest);
    CreateKeys(c, p, parent, info);
    FinalizeThenMigrate(c.tiers, p, m);
    assert d.tiers == Migrate(c.tiers, p, m);
    if StaleOverride(c, p) {
      assert p in c.tiers.blobs && m !in c.tiers.blobs;
      MigrateFrame(c.tiers, p, m);
      forall g | Bystander(g, p, info.id)
        ensures Read(d, g) == if CacheKey(c, g) == m then Some([]) else Read(c, g)
      {
        assert CacheKey(c, g) !in {p, m} ==> SlotOf(d.tiers, CacheKey(c, g)) == SlotOf(c.tiers, CacheKey(c, g));
      }
    } else {
      MoveToChecksum(c.tiers, latest, p, up, hash);
      forall g | Bystander(g, p, info.id)
        ensures SameOrFilled(Read(c, g), Read(d, g), up)
      {
        ElsewhereSame(c.tiers, p, m, CacheKey(c, g), up);
      }
    }
  }

  /** Main result for creations: the new file reads its uploaded bytes or
      misses, unless an empty copy hid the disk file and was carried over.
      Without such a copy other reads are unchanged or filled and the tiers
      stay content-addressed; with one, exactly the files on the new checksum
      read nothing. */
  lemma CreatePreservesReads(c: Client, p: Id, parent: Id, info: FileInfo, up: Bytes, latest: map<Key, Bytes>,
                             hash: Bytes -> Key)
    requires Creating(c, p, info, up, latest, hash)
    ensures var d := CommitCreate(c, p, parent, info);
            && (Read(d, info.id) in {None, Some(up)} <==> !StaleOverride(c, p) || info.md5 == Some(""))
            && (!StaleOverride(c, p) ==>
                 && (forall g :: Bystander(g, p, info.id) ==> SameOrFilled(Read(c, g), Read(d, g), up))
                 && (exists next :: StandsBeside(d.tiers, next, p) && Addressed(next, hash)))
            && (StaleOverride(c, p) ==> forall g :: Bystander(g, p, info.id) ==>
                  Read(d, g) == if KnownMd5(info.md5) == Some(CacheKey(c, g)) then Some([]) else Read(c, g))
  {
    match KnownMd5(info.md5)
    case None => CreateWithoutChecksum(c, p, parent, info, up, latest, hash);
    case Some(_) =>
      CreateWithChecksum(c, p, parent, info, up, latest, hash);
      if !StaleOverride(c, p) {
        var d, next := CommitCreate(c, p, parent, info), MoveKey(latest, p, hash(up));
        forall k ensures Stands(SlotOf(d.tiers, k), Find(next, k), d.tiers.ramMax) {
          RepresentsAt(d.tiers, next, k);
        }
        assert StandsBeside(d.tiers, next, p);
      }
  }
}
