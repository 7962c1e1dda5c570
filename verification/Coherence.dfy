/** The content cache over whole runs: as long as Drive's checksums are honest,
    no read of a clean file returns bytes with another checksum than its
    metadata names, whatever uploads, evictions and crashes happen, except at
    keys that one of a few mishaps has reached. */
module Coherence {
  import opened Basics
  import opened ContentTiers
  import opened Names
  import opened Client
  import opened ClientRun
  import opened Durability
  import opened Reads

  /** The checksum Drive computes: never empty, and without collisions.  That
      it is printed as an MD5 sum is asked only of the answers Drive gives. */
  ghost predicate Checksum(hash: Bytes -> Key) {
    CollisionFree(hash) && forall b :: hash(b) != ""
  }

  /** Drive sends the bytes its metadata describes, and if it answers an upload
      with a checksum, that is the one of what it was sent. */
  ghost predicate Honest(w: World, e: Event, hash: Bytes -> Key)
    requires Legal(w, e)
  {
    && (e.DownloadArrives? && IsMd5(CacheKey(w.client, e.id)) ==> hash(e.content) == CacheKey(w.client, e.id))
    && (e.UploadSend? ==> Answers(e.info, w.up.content, hash))
  }

  /** The keys that reads of files can go to: not those of placeholders whose
      content has not been released or has been uploaded. */
  predicate Live(rows: map<Id, Row>, k: Key) { k != "" && (IsPending(k) ==> Dirty(rows, k)) }

  /** The one key whose content is on the move. */
  predicate OnTheMove(w: World, k: Key) { At(w, BlobDone) && k == w.up.id && KnownMd5(w.up.info.md5).Some? }

  // ── What the tiers should hold ──

  /** The last bytes stored at each key, and the keys for which that is not
      promised any more. */
  datatype Ledger = Ledger(latest: map<Key, Bytes>, spoilt: set<Key>)

  /** The key to which an event stores content. */
  function StoresAt(w: World, e: Event): Option<Key> {
    match e
    case Flush(id, _) => Some(id)
    case ReleaseHandle(id, content, _, _) => if IsPending(id) && content == [] then None else Some(id)
    case DownloadArrives(id, _) => Some(CacheKey(w.client, id))
    case _ => None
  }

  /** The key that a finalisation's BLOB goes to, and whether it goes. */
  function BlobKey(info: FileInfo): Key { if info.md5.Some? then info.md5.value else info.id }

  predicate BlobGoes(t: Tiers, id: Id, info: FileInfo) {
    id in t.blobs && if IsPending(id) then BlobKey(info) !in t.blobs else KnownMd5(info.md5).Some?
  }

  function LatestBlob(t: Tiers, latest: map<Key, Bytes>, id: Id, info: FileInfo): map<Key, Bytes> {
    if !BlobGoes(t, id, info) then latest
    else if KnownMd5(info.md5).Some? then (latest - {id})[info.md5.value := t.blobs[id]]
    else LatestCreated(t, latest, id, info)
  }

  predicate Anywhere(t: Tiers, k: Key) { k in t.moka || k in t.blobs || k in t.disk }

  /** Moving whatever is left. */
  function LatestContent(t: Tiers, latest: map<Key, Bytes>, id: Id, info: FileInfo, content: Bytes): map<Key, Bytes> {
    match KnownMd5(info.md5)
    case Some(m) => if Anywhere(t, id) then (latest - {id})[m := content] else latest - {id}
    case None => latest
  }

  /** The last bytes stored at each key, after one more event. */
  function LatestAfter(w: World, latest: map<Key, Bytes>, e: Event): map<Key, Bytes> {
    match e
    case FeedChange(ch) => if Drops(w.client, ch) then latest - {ch.id} else latest
    case UploadBlob => if w.up.Sent? then LatestBlob(w.client.tiers, latest, w.up.id, w.up.info) else latest
    case UploadContent =>
      if w.up.Sent? then LatestContent(w.client.tiers, latest, w.up.id, w.up.info, w.up.content) else latest
    case _ => if StoresAt(w, e).Some? then latest[StoresAt(w, e).value := e.content] else latest
  }

  // How keys are spoilt.  A store makes a key good again, unless other bytes
  // than the uploaded ones come between the calls that move them.

  function SpoiltByStore(w: World, spoilt: set<Key>, k: Key, content: Bytes): set<Key> {
    if !OnTheMove(w, k) then spoilt - {k} else if content == w.up.content then spoilt else spoilt + {k}
  }

  /** The content that is about to move is not what Drive was sent. */
  predicate Overtaken(w: World, l: Ledger)
    requires w.up.Sent?
  {
    w.up.id in l.spoilt || (w.up.id in l.latest && l.latest[w.up.id] != w.up.content)
  }

  /** An overtaken file spoils its checksum if its BLOB moves there, and a
      placeholder that stays dirty while its BLOB moves to the real id is
      spoilt by what stays behind. */
  function SpoiltByBlob(w: World, l: Ledger): set<Key>
    requires w.up.Sent?
  {
    var id, t, goes := w.up.id, w.client.tiers, BlobGoes(w.client.tiers, w.up.id, w.up.info);
    if KnownMd5(w.up.info.md5).Some? then
      if !Overtaken(w, l) then l.spoilt else if goes then l.spoilt + {id, BlobKey(w.up.info)} else l.spoilt + {id}
    else if !goes then l.spoilt
    else if id in l.spoilt then l.spoilt + {BlobKey(w.up.info)}
    else if Dirty(w.client.rows, id) && (id in t.moka || id in t.disk) then l.spoilt + {id}
    else l.spoilt
  }

  /** Moving the rest leaves nothing behind, and spoils the checksum if it was
      spoilt. */
  function SpoiltByContent(w: World, spoilt: set<Key>): set<Key>
    requires w.up.Sent?
  {
    if KnownMd5(w.up.info.md5).None? || w.up.id !in spoilt then spoilt
    else if Anywhere(w.client.tiers, w.up.id) then spoilt - {w.up.id} + {w.up.info.md5.value}
    else spoilt - {w.up.id}
  }

  /** A crash between the moves strands the disk file of a key that is dirty
      but whose content has gone. */
  predicate Strands(w: World, latest: map<Key, Bytes>) {
    w.up.Sent? && OnTheMove(w, w.up.id) && Dirty(w.client.rows, w.up.id)
    && w.up.id in w.client.tiers.disk && w.up.id !in latest
  }

  function SpoiltAfter(w: World, l: Ledger, e: Event): set<Key> {
    match e
    case UploadBlob => if w.up.Sent? then SpoiltByBlob(w, l) else l.spoilt
    case UploadContent => if w.up.Sent? then SpoiltByContent(w, l.spoilt) else l.spoilt
    case CrashAndRestart(_) => if Strands(w, l.latest) then l.spoilt + {w.up.id} else l.spoilt
    case _ =>
      if StoresAt(w, e).Some? then SpoiltByStore(w, l.spoilt, StoresAt(w, e).value, e.content) else l.spoilt
  }

  function LedgerAfter(w: World, l: Ledger, e: Event): Ledger {
    Ledger(LatestAfter(w, l.latest, e), SpoiltAfter(w, l, e))
  }

  // ── The invariant ──

  predicate StandsAt(w: World, l: Ledger, k: Key) {
    Stands(SlotOf(w.client.tiers, k), Find(l.latest, k), w.client.tiers.ramMax)
  }

  /** Every live key that is not spoilt and stays where it is holds its last
      stored bytes. */
  ghost predicate LiveStands(w: World, l: Ledger) {
    forall k :: Live(w.client.rows, k) && !OnTheMove(w, k) && k !in l.spoilt ==> StandsAt(w, l, k)
  }

  /** Content kept under a checksum that is not spoilt has it. */
  ghost predicate KeptAddressed(l: Ledger, hash: Bytes -> Key) {
    forall k :: k in l.latest && IsMd5(k) && k !in l.spoilt ==> hash(l.latest[k]) == k
  }

  /** What a key on its way to a checksum may still hold: nothing but the
      uploaded bytes, and a stale disk file only behind a BLOB of them here or
      at the checksum (`target`). */
  predicate Leaving(slot: Slot, last: Option<Bytes>, target: Option<Bytes>, content: Bytes, ramMax: nat) {
    && (last.Some? ==> last == Some(content) && (|content| <= ramMax ==> slot.blob.Some?))
    && (slot.blob.Some? ==> slot.blob == Some(content) == last && |content| <= ramMax)
    && (slot.moka.Some? ==>
          slot.moka == Some(content) && |content| <= ramMax && (slot.blob.Some? || target == Some(content)))
    && (slot.disk.Some? ==>
          if |content| <= ramMax then slot.blob.Some? || target == Some(content) else slot.disk == Some(content))
  }

  function Target(w: World): Option<Bytes>
    requires w.up.Sent?
  {
    match KnownMd5(w.up.info.md5) case Some(m) => Find(w.client.tiers.blobs, m) case None => None
  }

  /** The uploader holds a file's bytes. */
  predicate Busy(w: World) { w.up.Loaded? || w.up.Asked? || w.up.Sent? }

  /** The row of the file has not been finalised yet. */
  predicate Early(w: World) { w.up.Loaded? || w.up.Asked? || At(w, Answered) }

  /** The content of the file that the uploader is busy with. */
  predicate UploaderSlot(w: World, l: Ledger)
    requires Busy(w)
  {
    var id, content, t := w.up.id, w.up.content, w.client.tiers;
    if Early(w) then
      && (!w.outdated || IsPending(id) ==> Dirty(w.client.rows, id))
      && (!w.outdated && id !in l.spoilt ==> Find(l.latest, id) == Some(content) == Lookup(t, id))
    else
      && (w.up.stage == RowDone && id !in l.spoilt ==> StandsAt(w, l, id))
      && (OnTheMove(w, id) && id !in l.spoilt ==>
            Leaving(SlotOf(t, id), Find(l.latest, id), Target(w), content, t.ramMax))
  }

  ghost predicate UploaderCurrent(w: World, l: Ledger, hash: Bytes -> Key) {
    && (Busy(w) ==> UploaderSlot(w, l))
    && (w.up.Sent? ==> Answers(w.up.info, w.up.content, hash))
  }

  /** Only large content is kept in disk files, and rows name real checksums. */
  ghost predicate WellKept(c: Client) {
    && (forall k :: k in c.tiers.disk ==> |c.tiers.disk[k]| > c.tiers.ramMax)
    && (forall id :: id in c.rows && KnownMd5(c.rows[id].md5).Some? ==> IsMd5(c.rows[id].md5.value))
  }

  ghost predicate Cached(w: World, l: Ledger, hash: Bytes -> Key) {
    LiveStands(w, l) && KeptAddressed(l, hash) && UploaderCurrent(w, l, hash) && WellKept(w.client)
  }

  ghost predicate Coherent(w: World, l: Ledger, hash: Bytes -> Key) {
    Durability.Inv(w) && Cached(w, l, hash)
  }

  // ── Every step keeps it ──

  lemma Md5IsLive(rows: map<Id, Row>, k: Key)
    requires IsMd5(k)
    ensures !IsPending(k) && Live(rows, k)
  {
    assert k[0] != PENDING[0];
  }

  /** The uploader's file and its checksum's BLOB are as they were. */
  lemma UploaderSame(w: World, r: World, l: Ledger, m: Ledger, hash: Bytes -> Key)
    requires UploaderCurrent(w, l, hash) && r.up == w.up && r.client.tiers.ramMax == w.client.tiers.ramMax
    requires w.outdated ==> r.outdated
    requires Busy(w) ==>
               && SlotOf(r.client.tiers, w.up.id) == SlotOf(w.client.tiers, w.up.id)
               && Find(m.latest, w.up.id) == Find(l.latest, w.up.id)
               && (w.up.id in m.spoilt <==> w.up.id in l.spoilt)
               && (Dirty(w.client.rows, w.up.id) ==> Dirty(r.client.rows, w.up.id))
    requires w.up.Sent? ==> Target(r) == Target(w)
    ensures UploaderCurrent(r, m, hash)
  {
  }

  lemma StoreStands(t: Tiers, latest: map<Key, Bytes>, id: Key, content: Bytes, k: Key)
    requires forall j :: j in t.disk ==> |t.disk[j]| > t.ramMax
    requires k != id ==> Stands(SlotOf(t, k), Find(latest, k), t.ramMax)
    ensures Stands(SlotOf(Store(t, id, content), k), Find(latest[id := content], k), t.ramMax)
    ensures forall j :: j in Store(t, id, content).disk ==> |Store(t, id, content).disk[j]| > t.ramMax
  {
  }

  /** The ledger after a store. */
  function Stored(w: World, l: Ledger, k: Key, content: Bytes): Ledger {
    Ledger(l.latest[k := content], SpoiltByStore(w, l.spoilt, k, content))
  }

  lemma StoreLive(w: World, r: World, l: Ledger, id: Key, content: Bytes)
    requires LiveStands(w, l) && WellKept(w.client) && r.client.tiers == Store(w.client.tiers, id, content)
    requires r.up == w.up
    requires forall k :: k != id && Live(r.client.rows, k) ==> Live(w.client.rows, k)
    ensures LiveStands(r, Stored(w, l, id, content))
    ensures forall j :: j in r.client.tiers.disk ==> |r.client.tiers.disk[j]| > r.client.tiers.ramMax
  {
    var m := Stored(w, l, id, content);
    forall k | Live(r.client.rows, k) && !OnTheMove(r, k) && k !in m.spoilt ensures StandsAt(r, m, k) {
      assert k != id ==> StandsAt(w, l, k);
      StoreStands(w.client.tiers, l.latest, id, content, k);
    }
    StoreStands(w.client.tiers, l.latest, id, content, id);
  }

  lemma StoreRows(w: World, e: Event)
    requires Legal(w, e) && (e.Flush? || e.ReleaseHandle?) && WellKept(w.client)
    ensures var rows := Apply(w, e).client.rows;
            && (forall k :: k != e.id && Live(rows, k) ==> Live(w.client.rows, k))
            && (forall k :: Dirty(w.client.rows, k) ==> Dirty(rows, k))
            && (forall k :: k in rows && KnownMd5(rows[k].md5).Some? ==> IsMd5(rows[k].md5.value))
  {
  }

  /** A store to another file than the one in flight. */
  lemma StoreBeside(w: World, r: World, l: Ledger, k: Key, content: Bytes, hash: Bytes -> Key)
    requires UploaderCurrent(w, l, hash) && CollisionFree(hash) && r.up == w.up && (w.outdated ==> r.outdated)
    requires r.client.tiers == Store(w.client.tiers, k, content) && (IsMd5(k) ==> hash(content) == k)
    requires forall j :: Dirty(w.client.rows, j) ==> Dirty(r.client.rows, j)
    requires Busy(w) ==> k != w.up.id
    ensures UploaderCurrent(r, Stored(w, l, k, content), hash)
  {
    StoreFrame(w.client.tiers, k, content);
    if w.up.Sent? && KnownMd5(w.up.info.md5) == Some(k) {
      assert IsMd5(k) && content == w.up.content;
    } else {
      assert w.up.Sent? && KnownMd5(w.up.info.md5).Some? ==>
               SlotOf(r.client.tiers, w.up.info.md5.value) == SlotOf(w.client.tiers, w.up.info.md5.value);
      UploaderSame(w, r, l, Stored(w, l, k, content), hash);
    }
  }

  /** A store to the file in flight makes the uploader's copy outdated, or
      comes after its row is done. */
  lemma StoreOwn(w: World, r: World, l: Ledger, content: Bytes, hash: Bytes -> Key)
    requires UploaderCurrent(w, l, hash) && WellKept(w.client) && Busy(w) && r.up == w.up
    requires r.client.tiers == Store(w.client.tiers, w.up.id, content) && !IsMd5(w.up.id)
    requires forall j :: Dirty(w.client.rows, j) ==> Dirty(r.client.rows, j)
    requires r.outdated || !Early(w)
    ensures UploaderCurrent(r, Stored(w, l, w.up.id, content), hash)
  {
    StoreFrame(w.client.tiers, w.up.id, content);
    StoreStands(w.client.tiers, l.latest, w.up.id, content, w.up.id);
  }

  lemma StoreCoherent(w: World, l: Ledger, e: Event, hash: Bytes -> Key)
    requires Coherent(w, l, hash) && Legal(w, e) && (e.Flush? || e.ReleaseHandle?) && CollisionFree(hash)
    ensures Cached(Apply(w, e), LedgerAfter(w, l, e), hash)
  {
    var r := Apply(w, e);
    StoreRows(w, e);
    if StoresAt(w, e).None? {
      assert r == w && LedgerAfter(w, l, e) == l;
    } else {
      assert r.up == w.up && r.client.tiers == Store(w.client.tiers, e.id, e.content);
      assert LedgerAfter(w, l, e) == Stored(w, l, e.id, e.content);
      StoreLive(w, r, l, e.id, e.content);
      if Busy(w) && e.id == w.up.id {
        StoreOwn(w, r, l, e.content, hash);
      } else {
        StoreBeside(w, r, l, e.id, e.content, hash);
      }
    }
  }

  lemma DownloadCoherent(w: World, l: Ledger, e: Event, hash: Bytes -> Key)
    requires Coherent(w, l, hash) && Legal(w, e) && Honest(w, e, hash) && Checksum(hash) && e.DownloadArrives?
    ensures Cached(Apply(w, e), LedgerAfter(w, l, e), hash)
  {
    var k, r := CacheKey(w.client, e.id), Apply(w, e);
    assert LedgerAfter(w, l, e) == Stored(w, l, k, e.content);
    StoreLive(w, r, l, k, e.content);
    if Busy(w) && k == w.up.id {
      assert FileId(k) && k == e.id;
      StoreOwn(w, r, l, e.content, hash);
    } else {
      StoreBeside(w, r, l, k, e.content, hash);
    }
  }

  lemma DropStands(c: Client, latest: map<Key, Bytes>, id: Id, k: Key)
    requires Stands(SlotOf(c.tiers, k), Find(latest, k), c.tiers.ramMax)
    ensures Stands(SlotOf(DropEntry(c, id).tiers, k), Find(latest - {id}, k), c.tiers.ramMax)
  {
  }

  lemma FeedLive(w: World, l: Ledger, ch: Change)
    requires LiveStands(w, l) && WellKept(w.client) && Legal(w, FeedChange(ch))
    ensures LiveStands(Apply(w, FeedChange(ch)), LedgerAfter(w, l, FeedChange(ch)))
    ensures WellKept(ApplyChange(w.client, ch))
  {
    var r, m := Apply(w, FeedChange(ch)), LedgerAfter(w, l, FeedChange(ch));
    assert r.client.tiers == if Drops(w.client, ch) then DropEntry(w.client, ch.id).tiers else w.client.tiers;
    ChangeDirt(w.client, ch);
    forall k | Live(r.client.rows, k) && !OnTheMove(r, k) && k !in m.spoilt ensures StandsAt(r, m, k) {
      assert Live(w.client.rows, k) && StandsAt(w, l, k);
      DropStands(w.client, l.latest, ch.id, k);
    }
  }

  /** A change drops no BLOB kept under a checksum. */
  lemma TargetKept(w: World, ch: Change)
    requires Durability.Inv(w) && Legal(w, FeedChange(ch)) && w.up.Sent?
    ensures Target(Apply(w, FeedChange(ch))) == Target(w)
  {
    assert !IsMd5(ch.id);
  }

  /** Dropping the entry of the file that is in flight makes the uploader's
      copy outdated, or leaves nothing to move. */
  lemma FeedOwn(w: World, l: Ledger, ch: Change, hash: Bytes -> Key)
    requires Coherent(w, l, hash) && Legal(w, FeedChange(ch)) && Busy(w) && w.up.id == ch.id
    ensures UploaderCurrent(Apply(w, FeedChange(ch)), LedgerAfter(w, l, FeedChange(ch)), hash)
  {
    var r := Apply(w, FeedChange(ch));
    assert r.up == w.up && (Early(w) ==> r.outdated);
    if !Early(w) {
      TargetKept(w, ch);
      if Drops(w.client, ch) {
        assert r.client.tiers == DropEntry(w.client, ch.id).tiers;
        assert SlotOf(r.client.tiers, ch.id) == Slot(None, None, None);
      } else {
        assert r.client.tiers == w.client.tiers;
      }
    }
  }

  lemma FeedBeside(w: World, ch: Change)
    requires Durability.Inv(w) && Legal(w, FeedChange(ch)) && !(Busy(w) && w.up.id == ch.id)
    ensures var r := Apply(w, FeedChange(ch));
            && r.up == w.up && r.client.tiers.ramMax == w.client.tiers.ramMax && (w.outdated ==> r.outdated)
            && (Busy(w) ==> SameFile(w.client, r.client, w.up.id))
            && (w.up.Sent? ==> Target(r) == Target(w))
  {
    ChangeFrame(w.client, ch);
    if w.up.Sent? {
      TargetKept(w, ch);
    }
  }

  lemma FeedOther(w: World, l: Ledger, ch: Change, hash: Bytes -> Key)
    requires Coherent(w, l, hash) && Legal(w, FeedChange(ch)) && !(Busy(w) && w.up.id == ch.id)
    ensures UploaderCurrent(Apply(w, FeedChange(ch)), LedgerAfter(w, l, FeedChange(ch)), hash)
  {
    var r, m := Apply(w, FeedChange(ch)), LedgerAfter(w, l, FeedChange(ch));
    FeedBeside(w, ch);
    assert m.spoilt == l.spoilt && (Busy(w) ==> Find(m.latest, w.up.id) == Find(l.latest, w.up.id));
    UploaderSame(w, r, l, m, hash);
  }

  lemma FeedCoherent(w: World, l: Ledger, ch: Change, hash: Bytes -> Key)
    requires Coherent(w, l, hash) && Legal(w, FeedChange(ch))
    ensures Cached(Apply(w, FeedChange(ch)), LedgerAfter(w, l, FeedChange(ch)), hash)
  {
    FeedLive(w, l, ch);
    if Busy(w) && w.up.id == ch.id {
      FeedOwn(w, l, ch, hash);
    } else {
      FeedOther(w, l, ch, hash);
    }
  }

  /** An upload starts from the last stored bytes, which can be read. */
  lemma LoadsLatest(w: World, l: Ledger, id: Id)
    requires LiveStands(w, l) && w.up.Idle? && Dirty(w.client.rows, id) && id != "" && id !in l.spoilt
    requires Payload(w.client, id).Some? && !StaleOverride(w.client, id)
    ensures id in l.latest && Payload(w.client, id) == Some(l.latest[id]) == Lookup(w.client.tiers, id)
  {
    assert CacheKey(w.client, id) == id;
    assert StandsAt(w, l, id);
  }

  lemma LoadCoherent(w: World, l: Ledger, e: Event, hash: Bytes -> Key)
    requires Coherent(w, l, hash) && Legal(w, e) && e.UploadLoad?
    ensures Cached(Apply(w, e), LedgerAfter(w, l, e), hash)
  {
    var r := Apply(w, e);
    if e.id !in l.spoilt && !StaleOverride(w.client, e.id) {
      LoadsLatest(w, l, e.id);
    }
    assert r.client == w.client.(tiers := Warm(w.client.tiers, e.id));
    forall k | Live(r.client.rows, k) && !OnTheMove(r, k) && k !in l.spoilt ensures StandsAt(r, l, k) {
      assert StandsAt(w, l, k);
    }
  }

  /** Asking Drive, its answers, and giving up change no content. */
  lemma AskCoherent(w: World, l: Ledger, e: Event, hash: Bytes -> Key)
    requires Coherent(w, l, hash) && Legal(w, e) && Honest(w, e, hash)
    requires e.UploadAsk? || e.UploadSend? || e.UploadFail?
    ensures Cached(Apply(w, e), LedgerAfter(w, l, e), hash)
  {
    var r := Apply(w, e);
    assert r.client == w.client;
    forall k | Live(r.client.rows, k) && !OnTheMove(r, k) && k !in l.spoilt ensures StandsAt(r, l, k) {
      assert StandsAt(w, l, k);
    }
  }

  // ── The calls of a finalisation ──

  lemma RowCoherent(w: World, l: Ledger, hash: Bytes -> Key)
    requires Coherent(w, l, hash) && Legal(w, UploadRow)
    ensures Cached(Apply(w, UploadRow), LedgerAfter(w, l, UploadRow), hash)
  {
    var r := Apply(w, UploadRow);
    RowFrame(w.client, w.up.id, w.up.info);
    assert r.client.tiers == w.client.tiers;
    assert Live(w.client.rows, w.up.id) && !OnTheMove(w, w.up.id);
    assert w.up.id !in l.spoilt ==> StandsAt(w, l, w.up.id);
    forall k | Live(r.client.rows, k) && !OnTheMove(r, k) && k !in l.spoilt ensures StandsAt(r, l, k) {
      assert Live(w.client.rows, k) && StandsAt(w, l, k);
    }
  }

  /** The tiers after the BLOB's call. */
  function AfterBlob(t: Tiers, id: Id, info: FileInfo): Tiers {
    t.(blobs := if !BlobGoes(t, id, info) then t.blobs else (t.blobs - {id})[BlobKey(info) := t.blobs[id]])
  }

  lemma BlobShape(w: World)
    requires Legal(w, UploadBlob) && FromDrive(w.up.info) && FileId(w.up.id)
    requires !IsPending(w.up.id) ==> w.up.info.id == w.up.id
    ensures Apply(w, UploadBlob).client == w.client.(tiers := AfterBlob(w.client.tiers, w.up.id, w.up.info))
  {
  }

  /** One key's slot when the BLOB moves to the checksum. */
  lemma BlobMoves(t: Tiers, latest: map<Key, Bytes>, id: Id, info: FileInfo, k: Key)
    requires k != id && k != "" && (BlobGoes(t, id, info) ==> k != BlobKey(info))
    requires Stands(SlotOf(t, k), Find(latest, k), t.ramMax)
    ensures Stands(SlotOf(AfterBlob(t, id, info), k), Find(LatestBlob(t, latest, id, info), k), t.ramMax)
  {
  }

  lemma BlobArrives(t: Tiers, latest: map<Key, Bytes>, id: Id, info: FileInfo)
    requires BlobGoes(t, id, info) && BlobKey(info) != id && BlobKey(info) != ""
    requires Stands(SlotOf(t, id), Find(latest, id), t.ramMax)
    requires Stands(SlotOf(t, BlobKey(info)), Find(latest, BlobKey(info)), t.ramMax)
    requires BlobKey(info) in t.blobs ==> t.blobs[BlobKey(info)] == t.blobs[id]
    ensures Stands(SlotOf(AfterBlob(t, id, info), BlobKey(info)),
                   Find(LatestBlob(t, latest, id, info), BlobKey(info)), t.ramMax)
  {
  }

  lemma BlobLeaves(t: Tiers, latest: map<Key, Bytes>, id: Id, info: FileInfo, content: Bytes)
    requires KnownMd5(info.md5).Some? && id != info.md5.value
    requires Stands(SlotOf(t, id), Find(latest, id), t.ramMax) && (id in latest ==> latest[id] == content)
    ensures var d := AfterBlob(t, id, info);
            Leaving(SlotOf(d, id), Find(LatestBlob(t, latest, id, info), id), Find(d.blobs, info.md5.value), content,
                    t.ramMax)
  {
  }

  /** The file's content is what Drive was sent, so its BLOB may arrive. */
  lemma BlobWithChecksumArrives(w: World, l: Ledger, hash: Bytes -> Key)
    requires Coherent(w, l, hash) && Legal(w, UploadBlob) && Checksum(hash) && KnownMd5(w.up.info.md5).Some?
    requires !Overtaken(w, l) && BlobGoes(w.client.tiers, w.up.id, w.up.info) && w.up.info.md5.value !in l.spoilt
    ensures StandsAt(Apply(w, UploadBlob), LedgerAfter(w, l, UploadBlob), w.up.info.md5.value)
  {
    var t, m := w.client.tiers, w.up.info.md5.value;
    Md5IsLive(w.client.rows, m);
    assert StandsAt(w, l, m) && StandsAt(w, l, w.up.id);
    assert m in l.latest ==> l.latest[m] == w.up.content;
    BlobShape(w);
    BlobArrives(t, l.latest, w.up.id, w.up.info);
  }

  lemma BlobLive(w: World, l: Ledger, hash: Bytes -> Key, k: Key)
    requires Coherent(w, l, hash) && Legal(w, UploadBlob) && Checksum(hash) && KnownMd5(w.up.info.md5).Some?
    requires Live(w.client.rows, k) && k != w.up.id && k !in LedgerAfter(w, l, UploadBlob).spoilt
    ensures StandsAt(Apply(w, UploadBlob), LedgerAfter(w, l, UploadBlob), k)
  {
    BlobShape(w);
    assert k !in l.spoilt && StandsAt(w, l, k);
    if BlobGoes(w.client.tiers, w.up.id, w.up.info) && k == BlobKey(w.up.info) {
      BlobWithChecksumArrives(w, l, hash);
    } else {
      BlobMoves(w.client.tiers, l.latest, w.up.id, w.up.info, k);
    }
  }

  lemma BlobAddressed(w: World, l: Ledger, hash: Bytes -> Key)
    requires Coherent(w, l, hash) && Legal(w, UploadBlob) && KnownMd5(w.up.info.md5).Some?
    ensures KeptAddressed(LedgerAfter(w, l, UploadBlob), hash)
  {
    var t := w.client.tiers;
    if BlobGoes(t, w.up.id, w.up.info) && !Overtaken(w, l) {
      assert StandsAt(w, l, w.up.id) && t.blobs[w.up.id] == w.up.content;
    }
  }

  lemma BlobWithChecksum(w: World, l: Ledger, hash: Bytes -> Key)
    requires Coherent(w, l, hash) && Legal(w, UploadBlob) && Checksum(hash) && KnownMd5(w.up.info.md5).Some?
    ensures Cached(Apply(w, UploadBlob), LedgerAfter(w, l, UploadBlob), hash)
  {
    var r, m, id := Apply(w, UploadBlob), LedgerAfter(w, l, UploadBlob), w.up.id;
    BlobShape(w);
    BlobAddressed(w, l, hash);
    forall k | Live(r.client.rows, k) && !OnTheMove(r, k) && k !in m.spoilt ensures StandsAt(r, m, k) {
      BlobLive(w, l, hash, k);
    }
    if !Overtaken(w, l) {
      assert StandsAt(w, l, id);
      BlobLeaves(w.client.tiers, l.latest, id, w.up.info, w.up.content);
    }
    assert UploaderSlot(r, m);
  }

  /** Without a checksum the BLOB of a placeholder goes to the real id. */
  lemma BlobLiveWithout(w: World, l: Ledger, hash: Bytes -> Key, k: Key)
    requires Coherent(w, l, hash) && Legal(w, UploadBlob) && KnownMd5(w.up.info.md5).None?
    requires Live(w.client.rows, k) && k !in LedgerAfter(w, l, UploadBlob).spoilt
    ensures StandsAt(Apply(w, UploadBlob), LedgerAfter(w, l, UploadBlob), k)
  {
    var t, id := w.client.tiers, w.up.id;
    BlobShape(w);
    assert k !in l.spoilt && StandsAt(w, l, k);
    if BlobGoes(t, id, w.up.info) && k == BlobKey(w.up.info) {
      assert StandsAt(w, l, id);
      BlobArrives(t, l.latest, id, w.up.info);
    } else if k != id {
      BlobMoves(t, l.latest, id, w.up.info, k);
    }
  }

  lemma BlobWithoutChecksum(w: World, l: Ledger, hash: Bytes -> Key)
    requires Coherent(w, l, hash) && Legal(w, UploadBlob) && KnownMd5(w.up.info.md5).None?
    ensures Cached(Apply(w, UploadBlob), LedgerAfter(w, l, UploadBlob), hash)
  {
    var r, m := Apply(w, UploadBlob), LedgerAfter(w, l, UploadBlob);
    BlobShape(w);
    forall k | Live(r.client.rows, k) && !OnTheMove(r, k) && k !in m.spoilt ensures StandsAt(r, m, k) {
      BlobLiveWithout(w, l, hash, k);
    }
  }

  /** One key's slot when the rest moves to the checksum. */
  lemma ContentMoves(t: Tiers, latest: map<Key, Bytes>, id: Id, info: FileInfo, content: Bytes, m: Key, k: Key)
    requires KnownMd5(info.md5) == Some(m) && m !in {id, k}
    requires k != id ==> Stands(SlotOf(t, k), Find(latest, k), t.ramMax)
    ensures Stands(SlotOf(Migrate(t, id, m), k), Find(LatestContent(t, latest, id, info, content), k), t.ramMax)
  {
    var s := SlotOf(Migrate(t, id, m), k);
    if k == id {
      assert s == Slot(None, None, None);
    } else {
      assert s == SlotOf(t, k);
    }
  }

  lemma ContentArrives(t: Tiers, latest: map<Key, Bytes>, id: Id, info: FileInfo, content: Bytes, m: Key)
    requires KnownMd5(info.md5) == Some(m) && id != m && (m in latest ==> latest[m] == content)
    requires forall j :: j in t.disk ==> |t.disk[j]| > t.ramMax
    requires Leaving(SlotOf(t, id), Find(latest, id), Find(t.blobs, m), content, t.ramMax) || !Anywhere(t, id)
    requires Stands(SlotOf(t, m), Find(latest, m), t.ramMax)
    ensures Stands(SlotOf(Migrate(t, id, m), m), Find(LatestContent(t, latest, id, info, content), m), t.ramMax)
  {
    var s, x := SlotOf(Migrate(t, id, m), m), SlotOf(t, id);
    assert s == Slot(if x.moka.Some? then x.moka else Find(t.moka, m),
                     if x.blob.Some? then x.blob else Find(t.blobs, m),
                     if x.disk.Some? then x.disk else Find(t.disk, m));
  }

  lemma ContentLive(w: World, l: Ledger, hash: Bytes -> Key, k: Key)
    requires Coherent(w, l, hash) && At(w, BlobDone) && Checksum(hash) && KnownMd5(w.up.info.md5).Some?
    requires Live(w.client.rows, k) && k !in LedgerAfter(w, l, UploadContent).spoilt
    ensures var t := w.client.tiers;
            Stands(SlotOf(Migrate(t, w.up.id, hash(w.up.content)), k),
                   Find(LatestContent(t, l.latest, w.up.id, w.up.info, w.up.content), k), t.ramMax)
  {
    var t, m, id := w.client.tiers, hash(w.up.content), w.up.id;
    assert IsMd5(m) && id != m && KnownMd5(w.up.info.md5) == Some(m);
    if k == m {
      Md5IsLive(w.client.rows, m);
      assert m !in l.spoilt && StandsAt(w, l, m);
      assert m in l.latest ==> l.latest[m] == w.up.content;
      ContentArrives(t, l.latest, id, w.up.info, w.up.content, m);
    } else {
      assert k != id ==> StandsAt(w, l, k);
      ContentMoves(t, l.latest, id, w.up.info, w.up.content, m, k);
    }
  }

  lemma NothingMoves(w: World, r: World, l: Ledger)
    requires LiveStands(w, l) && r.client.tiers == w.client.tiers && r.client.rows == w.client.rows
    requires forall k :: !OnTheMove(w, k)
    ensures LiveStands(r, l)
  {
    forall k | Live(r.client.rows, k) && k !in l.spoilt ensures StandsAt(r, l, k) {
      assert StandsAt(w, l, k);
    }
  }

  lemma ContentCoherent(w: World, l: Ledger, hash: Bytes -> Key)
    requires Coherent(w, l, hash) && Legal(w, UploadContent) && Checksum(hash)
    ensures Cached(Apply(w, UploadContent), LedgerAfter(w, l, UploadContent), hash)
  {
    var r, m := Apply(w, UploadContent), LedgerAfter(w, l, UploadContent);
    assert r.client == CommitContent(w.client, w.up.id, w.up.info) && r.up == w.up.(stage := ContentDone);
    if KnownMd5(w.up.info.md5).Some? {
      assert r.client.tiers == Migrate(w.client.tiers, w.up.id, hash(w.up.content));
      forall k | Live(r.client.rows, k) && !OnTheMove(r, k) && k !in m.spoilt ensures StandsAt(r, m, k) {
        ContentLive(w, l, hash, k);
      }
    } else {
      assert r.client == w.client && m == l;
      NothingMoves(w, r, l);
    }
  }

  lemma NamesCoherent(w: World, l: Ledger, hash: Bytes -> Key)
    requires Coherent(w, l, hash) && Legal(w, UploadNames)
    ensures Cached(Apply(w, UploadNames), LedgerAfter(w, l, UploadNames), hash)
  {
    var r := Apply(w, UploadNames);
    assert r.client.tiers == w.client.tiers && r.client.rows == w.client.rows;
    NothingMoves(w, r, l);
  }

  /** Losing RAM copies anywhere, or disk files of clean keys. */
  lemma EvictedStands(w: World, r: World, l: Ledger)
    requires LiveStands(w, l) && WellKept(w.client) && r.client.tiers.ramMax == w.client.tiers.ramMax
    requires forall k :: Live(r.client.rows, k) ==> Live(w.client.rows, k)
    requires forall k :: Live(r.client.rows, k) && OnTheMove(w, k) ==> OnTheMove(r, k)
    requires forall k :: SlotOf(r.client.tiers, k).blob == SlotOf(w.client.tiers, k).blob
    requires forall k :: var s := SlotOf(w.client.tiers, k); SlotOf(r.client.tiers, k).moka in {None, s.moka, s.blob}
    requires forall k :: SlotOf(r.client.tiers, k).disk in {None, SlotOf(w.client.tiers, k).disk}
    ensures LiveStands(r, l)
    ensures forall k :: k in r.client.tiers.disk ==> |r.client.tiers.disk[k]| > r.client.tiers.ramMax
  {
    forall k | Live(r.client.rows, k) && !OnTheMove(r, k) && k !in l.spoilt ensures StandsAt(r, l, k) {
      assert StandsAt(w, l, k);
    }
    forall k | k in r.client.tiers.disk ensures |r.client.tiers.disk[k]| > r.client.tiers.ramMax {
      assert SlotOf(r.client.tiers, k).disk in {None, SlotOf(w.client.tiers, k).disk};
    }
  }

  lemma RefusalCoherent(w: World, l: Ledger, e: Event, hash: Bytes -> Key)
    requires Coherent(w, l, hash) && Legal(w, e) && (e.UploadRefused? || e.UploadForget?)
    ensures Cached(Apply(w, e), LedgerAfter(w, l, e), hash)
  {
    var r := Apply(w, e);
    assert r.client.rows ==
           if e.UploadRefused? && Dirty(w.client.rows, w.up.id) then w.client.rows - {w.up.id} else w.client.rows;
    EvictedStands(w, r, l);
  }

  // ── Evictions and the rest ──

  /** The same for the file in flight; unless it is outdated, a dirty one keeps
      its disk file. */
  lemma EvictedUploader(w: World, r: World, l: Ledger, hash: Bytes -> Key)
    requires Coherent(w, l, hash) && r.up == w.up && r.client.rows == w.client.rows && (w.outdated ==> r.outdated)
    requires r.client.tiers.ramMax == w.client.tiers.ramMax && r.client.tiers.blobs == w.client.tiers.blobs
    requires Busy(w) ==>
               var s, z := SlotOf(w.client.tiers, w.up.id), SlotOf(r.client.tiers, w.up.id);
               && z.moka in {None, s.moka, s.blob} && z.disk in {None, s.disk}
               && (Dirty(w.client.rows, w.up.id) && !r.outdated ==> z.disk == s.disk)
    ensures UploaderCurrent(r, l, hash)
  {
    if Early(w) && w.up.id !in l.spoilt && !r.outdated {
      assert Live(w.client.rows, w.up.id) && !OnTheMove(w, w.up.id);
      assert StandsAt(w, l, w.up.id);
    }
  }

  lemma EvictionCoherent(w: World, l: Ledger, e: Event, hash: Bytes -> Key)
    requires Coherent(w, l, hash) && Legal(w, e)
    requires e.ReadContent? || e.RamEviction? || e.DiskEviction?
    ensures Cached(Apply(w, e), LedgerAfter(w, l, e), hash)
  {
    EvictedStands(w, Apply(w, e), l);
    EvictedUploader(w, Apply(w, e), l, hash);
  }

  lemma DeleteCoherent(w: World, l: Ledger, e: Event, hash: Bytes -> Key)
    requires Coherent(w, l, hash) && Legal(w, e) && e.Delete?
    ensures Cached(Apply(w, e), LedgerAfter(w, l, e), hash)
  {
    var r := Apply(w, e);
    assert r.client.tiers == EvictDisk(EvictRam(w.client.tiers, {e.id}), {e.id}) && r.client.rows == w.client.rows;
    EvictedStands(w, r, l);
    EvictedUploader(w, r, l, hash);
  }

  lemma MovedDiskCollected(w: World, k: Key)
    requires Durability.Inv(w) && WellKept(w.client) && OnTheMove(w, k) && !Dirty(w.client.rows, k)
    ensures !GcKeeps(w.client.rows, k)
  {
    assert FileId(k);
    assert forall id :: id in w.client.rows && w.client.rows[id].md5 == Some(k) ==> IsMd5(k);
  }

  /** After a crash a key that was on the move holds at most a BLOB, or the
      uploaded bytes in a disk file, unless the crash strands it. */
  lemma RestartMoved(w: World, l: Ledger, order: seq<(Id, nat)>, hash: Bytes -> Key)
    requires Coherent(w, l, hash) && Legal(w, CrashAndRestart(order)) && w.up.Sent? && OnTheMove(w, w.up.id)
    requires Live(w.client.rows, w.up.id) && w.up.id !in LedgerAfter(w, l, CrashAndRestart(order)).spoilt
    ensures StandsAt(Apply(w, CrashAndRestart(order)), l, w.up.id)
  {
    var r, k := Apply(w, CrashAndRestart(order)), w.up.id;
    assert Leaving(SlotOf(w.client.tiers, k), Find(l.latest, k), Target(w), w.up.content, w.client.tiers.ramMax);
    assert k !in r.client.tiers.moka;
    if !Dirty(w.client.rows, k) {
      MovedDiskCollected(w, k);
      assert k !in r.client.tiers.disk;
    }
  }

  lemma RestartCoherent(w: World, l: Ledger, order: seq<(Id, nat)>, hash: Bytes -> Key)
    requires Coherent(w, l, hash) && Legal(w, CrashAndRestart(order))
    ensures Cached(Apply(w, CrashAndRestart(order)), LedgerAfter(w, l, CrashAndRestart(order)), hash)
  {
    var r, m := Apply(w, CrashAndRestart(order)), LedgerAfter(w, l, CrashAndRestart(order));
    forall k | Live(r.client.rows, k) && k !in m.spoilt ensures StandsAt(r, m, k) {
      if OnTheMove(w, k) {
        RestartMoved(w, l, order, hash);
      } else {
        assert StandsAt(w, l, k);
      }
    }
  }

  lemma SameTiers(w: World, e: Event)
    requires Legal(w, e)
    requires e.CreateFile? || e.OpenHandle? || e.RenamePlaceholder? || e.ListingArrives? || e.Invalidate?
             || e.MetadataArrives?
    ensures Apply(w, e).client.tiers == w.client.tiers && Apply(w, e).up == w.up && Apply(w, e).outdated == w.outdated
    ensures forall id :: Dirty(Apply(w, e).client.rows, id) == Dirty(w.client.rows, id)
    ensures WellKept(w.client) ==> WellKept(Apply(w, e).client)
  {
  }

  lemma QuietCoherent(w: World, l: Ledger, e: Event, hash: Bytes -> Key)
    requires Coherent(w, l, hash) && Legal(w, e)
    requires e.CreateFile? || e.OpenHandle? || e.RenamePlaceholder? || e.ListingArrives? || e.Invalidate?
             || e.MetadataArrives?
    ensures Cached(Apply(w, e), LedgerAfter(w, l, e), hash)
  {
    var r := Apply(w, e);
    SameTiers(w, e);
    assert LedgerAfter(w, l, e) == l;
    UploaderSame(w, r, l, l, hash);
    forall k | Live(r.client.rows, k) && !OnTheMove(r, k) && k !in l.spoilt ensures StandsAt(r, l, k) {
      assert StandsAt(w, l, k);
    }
  }

  lemma UploadCoherent(w: World, l: Ledger, e: Event, hash: Bytes -> Key)
    requires Coherent(w, l, hash) && Legal(w, e) && Checksum(hash)
    requires e.UploadRow? || e.UploadBlob? || e.UploadContent? || e.UploadNames? || e.UploadRefused? || e.UploadForget?
    ensures Cached(Apply(w, e), LedgerAfter(w, l, e), hash)
  {
    if e.UploadRow? {
      RowCoherent(w, l, hash);
    } else if e.UploadBlob? {
      if KnownMd5(w.up.info.md5).Some? {
        BlobWithChecksum(w, l, hash);
      } else {
        BlobWithoutChecksum(w, l, hash);
      }
    } else if e.UploadContent? {
      ContentCoherent(w, l, hash);
    } else if e.UploadNames? {
      NamesCoherent(w, l, hash);
    } else {
      RefusalCoherent(w, l, e, hash);
    }
  }

  lemma Step(w: World, l: Ledger, e: Event, hash: Bytes -> Key)
    requires Coherent(w, l, hash) && Legal(w, e) && Honest(w, e, hash) && Checksum(hash)
    ensures Coherent(Apply(w, e), LedgerAfter(w, l, e), hash)
  {
    Durability.Step(w, e);
    if e.Flush? || e.ReleaseHandle? {
      StoreCoherent(w, l, e, hash);
    } else if e.DownloadArrives? {
      DownloadCoherent(w, l, e, hash);
    } else if e.FeedChange? {
      FeedCoherent(w, l, e.change, hash);
    } else if e.UploadLoad? {
      LoadCoherent(w, l, e, hash);
    } else if e.UploadAsk? || e.UploadSend? || e.UploadFail? {
      AskCoherent(w, l, e, hash);
    } else if e.ReadContent? || e.RamEviction? || e.DiskEviction? {
      EvictionCoherent(w, l, e, hash);
    } else if e.Delete? {
      DeleteCoherent(w, l, e, hash);
    } else if e.CrashAndRestart? {
      RestartCoherent(w, l, e.rowOrder, hash);
    } else if e.CreateFile? || e.OpenHandle? || e.RenamePlaceholder? || e.ListingArrives? || e.Invalidate?
              || e.MetadataArrives? {
      QuietCoherent(w, l, e, hash);
    } else {
      UploadCoherent(w, l, e, hash);
    }
  }

  // ── Whole runs ──

  ghost predicate HonestRun(w: World, es: seq<Event>, hash: Bytes -> Key)
    requires IsRun(w, es)
    decreases |es|
  {
    es == [] || (Honest(w, es[0], hash) && HonestRun(Apply(w, es[0]), es[1..], hash))
  }

  ghost function LedgerOf(w: World, l: Ledger, es: seq<Event>): Ledger
    requires IsRun(w, es)
    decreases |es|
  {
    if es == [] then l else LedgerOf(Apply(w, es[0]), LedgerAfter(w, l, es[0]), es[1..])
  }

  const BLANK: Ledger := Ledger(map[], {})

  lemma {:induction false} CoherentRun(w: World, l: Ledger, es: seq<Event>, hash: Bytes -> Key)
    requires Coherent(w, l, hash) && Checksum(hash)
    requires IsRun(w, es) && HonestRun(w, es, hash)
    ensures Coherent(Run(w, es), LedgerOf(w, l, es), hash)
    decreases |es|
  {
    if es != [] {
      Step(w, l, es[0], hash);
      CoherentRun(Apply(w, es[0]), LedgerAfter(w, l, es[0]), es[1..], hash);
    }
  }

  /** A run from the first start in which Drive keeps its word. */
  ghost predicate HonestHistory(ramMax: nat, drive: map<Id, Bytes>, es: seq<Event>, hash: Bytes -> Key) {
    && Checksum(hash)
    && IsRun(FirstStart(ramMax, drive), es)
    && HonestRun(FirstStart(ramMax, drive), es, hash)
  }

  lemma HistoryCoherent(ramMax: nat, drive: map<Id, Bytes>, es: seq<Event>, hash: Bytes -> Key)
    requires HonestHistory(ramMax, drive, es, hash)
    ensures Coherent(Run(FirstStart(ramMax, drive), es), LedgerOf(FirstStart(ramMax, drive), BLANK, es), hash)
  {
    CoherentRun(FirstStart(ramMax, drive), BLANK, es, hash);
  }

  /** Main result: after any such run every live key of the three tiers, but
      for spoilt ones and one that an upload is just moving, holds its last
      stored bytes and misses nothing small, and everything kept under a
      checksum that is not spoilt has it. */
  lemma TiersStayAddressed(ramMax: nat, drive: map<Id, Bytes>, es: seq<Event>, hash: Bytes -> Key)
    requires HonestHistory(ramMax, drive, es, hash)
    ensures var ledger := LedgerOf(FirstStart(ramMax, drive), BLANK, es);
            LiveStands(Run(FirstStart(ramMax, drive), es), ledger) && KeptAddressed(ledger, hash)
  {
    HistoryCoherent(ramMax, drive, es, hash);
  }

  /** A clean file's metadata names a checksum. */
  predicate CleanWithChecksum(c: Client, g: Id) {
    !IsPending(g) && !Dirty(c.rows, g) && g in c.names.metadata && KnownMd5(c.names.metadata[g].md5).Some?
  }

  lemma CleanReadsRight(w: World, l: Ledger, hash: Bytes -> Key, g: Id)
    requires Coherent(w, l, hash)
    ensures CleanWithChecksum(w.client, g) && CacheKey(w.client, g) !in l.spoilt && Read(w.client, g).Some? ==>
              Some(hash(Read(w.client, g).value)) == w.client.names.metadata[g].md5
  {
    if CleanWithChecksum(w.client, g) && CacheKey(w.client, g) !in l.spoilt {
      var m := w.client.names.metadata[g].md5.value;
      assert CacheKey(w.client, g) == m;
      Md5IsLive(w.client.rows, m);
      assert !OnTheMove(w, m);
      assert StandsAt(w, l, m);
    }
  }

  /** Main result: after any such run a read returns the right bytes or misses.
      A dirty file with content reads exactly what was last stored for it, and
      a clean file, whose checksum is not spoilt, never reads bytes whose
      checksum is not the one its metadata names. */
  lemma ReadsAreRight(ramMax: nat, drive: map<Id, Bytes>, es: seq<Event>, hash: Bytes -> Key, g: Id)
    requires HonestHistory(ramMax, drive, es, hash)
    ensures var w := Run(FirstStart(ramMax, drive), es);
            Dirty(w.client.rows, g) && g in w.owed ==> Read(w.client, g) == Some(w.owed[g])
    ensures var c := Run(FirstStart(ramMax, drive), es).client;
            var spoilt := LedgerOf(FirstStart(ramMax, drive), BLANK, es).spoilt;
            CleanWithChecksum(c, g) && CacheKey(c, g) !in spoilt && Read(c, g).Some? ==>
              Some(hash(Read(c, g).value)) == c.names.metadata[g].md5
  {
    NoDirtyBytesLost(ramMax, drive, es);
    HistoryCoherent(ramMax, drive, es, hash);
    var w := FirstStart(ramMax, drive);
    CleanReadsRight(Run(w, es), LedgerOf(w, BLANK, es), hash, g);
  }

  // ── Runs that spoil nothing ──

  /** Nothing is stored to a file in flight, it is not deleted and nothing comes
      over its unsent bytes, a download for a file being finalised brings the
      uploaded bytes, no upload starts from a stale disk file, and no
      placeholder stays dirty while its content moves without a checksum or is
      cut off by a crash. */
  predicate Careful(w: World, e: Event) {
    match e
    case Flush(id, _) => !InFlight(w, id)
    case ReleaseHandle(id, _, _, _) => !InFlight(w, id)
    case Delete(id) => !InFlight(w, id)
    case FeedChange(ch) => Dirty(w.client.rows, ch.id) ==> !InFlight(w, ch.id)
    case DownloadArrives(id, content) =>
      && (Dirty(w.client.rows, id) ==> !InFlight(w, id))
      && (w.up.Sent? && CacheKey(w.client, id) == w.up.id ==> content == w.up.content)
    case UploadLoad(id) => !StaleOverride(w.client, id)
    case UploadBlob =>
      w.up.Sent? && IsPending(w.up.id) && KnownMd5(w.up.info.md5).None? ==> !Dirty(w.client.rows, w.up.id)
    case CrashAndRestart(_) => w.up.Sent? && OnTheMove(w, w.up.id) ==> !Dirty(w.client.rows, w.up.id)
    case _ => true
  }

  ghost predicate CarefulRun(w: World, es: seq<Event>)
    requires IsRun(w, es)
    decreases |es|
  {
    es == [] || (Careful(w, es[0]) && CarefulRun(Apply(w, es[0]), es[1..]))
  }

  predicate Unspoilt(w: World, l: Ledger) {
    && l.spoilt == {} && (Busy(w) ==> !w.outdated)
    && (At(w, RowDone) && w.up.id in l.latest ==> l.latest[w.up.id] == w.up.content)
  }

  lemma NothingSpoilt(w: World, l: Ledger, e: Event)
    requires Unspoilt(w, l) && Legal(w, e) && Careful(w, e)
    ensures SpoiltAfter(w, l, e) == {}
  {
  }

  lemma StaysCurrent(w: World, e: Event)
    requires (Busy(w) ==> !w.outdated) && Legal(w, e) && Careful(w, e)
    ensures Busy(Apply(w, e)) ==> !Apply(w, e).outdated
  {
  }

  lemma StaysSent(w: World, l: Ledger, e: Event, hash: Bytes -> Key)
    requires UploaderCurrent(w, l, hash) && Unspoilt(w, l) && Legal(w, e) && Careful(w, e)
    requires At(Apply(w, e), RowDone) && w.up.id in LatestAfter(w, l.latest, e)
    ensures LatestAfter(w, l.latest, e)[w.up.id] == w.up.content
  {
    assert e.UploadRow? || At(w, RowDone);
  }

  lemma StaysUnspoilt(w: World, l: Ledger, e: Event, hash: Bytes -> Key)
    requires Coherent(w, l, hash) && Unspoilt(w, l) && Legal(w, e) && Careful(w, e)
    ensures Unspoilt(Apply(w, e), LedgerAfter(w, l, e))
  {
    var r := Apply(w, e);
    NothingSpoilt(w, l, e);
    StaysCurrent(w, e);
    if At(r, RowDone) {
      assert r.up.id == w.up.id && r.up.content == w.up.content;
      if w.up.id in LatestAfter(w, l.latest, e) {
        StaysSent(w, l, e, hash);
      }
    }
  }

  lemma {:induction false} UnspoiltRun(w: World, l: Ledger, es: seq<Event>, hash: Bytes -> Key)
    requires Coherent(w, l, hash) && Checksum(hash) && Unspoilt(w, l)
    requires IsRun(w, es) && HonestRun(w, es, hash) && CarefulRun(w, es)
    ensures Unspoilt(Run(w, es), LedgerOf(w, l, es))
    decreases |es|
  {
    if es != [] {
      Step(w, l, es[0], hash);
      StaysUnspoilt(w, l, es[0], hash);
      UnspoiltRun(Apply(w, es[0]), LedgerAfter(w, l, es[0]), es[1..], hash);
    }
  }

  /** A run without such mishaps spoils no key, so the results hold for all
      files, and no upload is outdated. */
  lemma CarefulRunsSpoilNothing(ramMax: nat, drive: map<Id, Bytes>, es: seq<Event>, hash: Bytes -> Key)
    requires HonestHistory(ramMax, drive, es, hash) && CarefulRun(FirstStart(ramMax, drive), es)
    ensures LedgerOf(FirstStart(ramMax, drive), BLANK, es).spoilt == {}
    ensures var w := Run(FirstStart(ramMax, drive), es); At(w, Answered) ==> !w.outdated
  {
    UnspoiltRun(FirstStart(ramMax, drive), BLANK, es, hash);
  }

  // ── Uploads in such runs ──

  /** The client once all calls of the finalisation are through. */
  function Done(w: World): Client
    requires w.up.Sent?
  {
    Commit(w.client, w.up.id, w.up.parent, w.up.info)
  }

  /** Neither the file nor the checksum it goes to has been spoilt, and the
      uploader's copy is not outdated. */
  predicate Sane(w: World, l: Ledger) {
    && At(w, Answered) && !w.outdated && w.up.id !in l.spoilt
    && (KnownMd5(w.up.info.md5).Some? ==> w.up.info.md5.value !in l.spoilt)
  }

  lemma CommitSameFile(w: World, g: Id)
    requires Durability.Inv(w) && At(w, Answered) && g != w.up.id && g != w.up.info.id
    ensures Dirty(Done(w).rows, g) == Dirty(w.client.rows, g)
    ensures Find(Done(w).names.metadata, g) == Find(w.client.names.metadata, g)
  {
  }

  lemma CommitKeys(w: World, g: Id)
    requires Durability.Inv(w) && At(w, Answered) && FileId(g) && g != w.up.id && g != w.up.info.id
    ensures CacheKey(Done(w), g) == CacheKey(w.client, g)
    ensures CacheKey(w.client, g) !in {w.up.id, w.up.info.id, ""}
  {
    CommitSameFile(w, g);
  }

  lemma CommittedKey(w: World)
    requires Durability.Inv(w) && At(w, Answered) && Dirty(w.client.rows, w.up.id)
    requires IsPending(w.up.id) ==> !Dirty(w.client.rows, w.up.info.id)
    ensures CacheKey(w.client, w.up.id) == w.up.id
    ensures CacheKey(Done(w), w.up.info.id) == match KnownMd5(w.up.info.md5) case Some(m) => m case None => w.up.info.id
  {
  }

  /** With a checksum either kind of finalisation moves the content to it. */
  lemma CommitMigrates(w: World, hash: Bytes -> Key)
    requires Durability.Inv(w) && At(w, Answered)
    requires Answers(w.up.info, w.up.content, hash) && KnownMd5(w.up.info.md5).Some?
    ensures IsMd5(hash(w.up.content)) && w.up.id != hash(w.up.content)
    ensures Done(w).tiers == Migrate(w.client.tiers, w.up.id, hash(w.up.content))
  {
    FinalizeThenMigrate(w.client.tiers, w.up.id, hash(w.up.content));
  }

  /** Without one nothing moves, or the one BLOB of a creation does. */
  lemma CommitWithoutChecksumTiers(w: World, k: Key)
    requires Durability.Inv(w) && At(w, Answered) && KnownMd5(w.up.info.md5).None?
    ensures !IsPending(w.up.id) ==> Done(w).tiers == w.client.tiers
    ensures k !in {w.up.id, w.up.info.id, ""} ==> SlotOf(Done(w).tiers, k) == SlotOf(w.client.tiers, k)
    ensures Lookup(Done(w).tiers, w.up.info.id) in
              {Lookup(w.client.tiers, w.up.info.id), Find(w.client.tiers.blobs, w.up.id)}
  {
  }

  lemma TargetRight(w: World, l: Ledger, hash: Bytes -> Key)
    requires Coherent(w, l, hash) && Sane(w, l) && Checksum(hash) && KnownMd5(w.up.info.md5).Some?
    ensures var t, m := w.client.tiers, hash(w.up.content);
            && Lookup(Migrate(t, w.up.id, m), m) == Some(w.up.content)
            && (Lookup(t, m).Some? ==> Lookup(t, m) == Some(w.up.content))
  {
    var t, m := w.client.tiers, hash(w.up.content);
    CommitMigrates(w, hash);
    Md5IsLive(w.client.rows, m);
    assert Live(w.client.rows, w.up.id) && !OnTheMove(w, w.up.id) && !OnTheMove(w, m);
    assert StandsAt(w, l, m) && StandsAt(w, l, w.up.id);
    assert m in l.latest ==> l.latest[m] == w.up.content;
    MigrateCarries(t, w.up.id, m);
  }

  /** The uploaded file's own reads, before and after. */
  lemma UploadReadsBack(w: World, l: Ledger, hash: Bytes -> Key)
    requires Coherent(w, l, hash) && Sane(w, l) && Checksum(hash)
    ensures Read(w.client, w.up.id) == Some(w.up.content)
    ensures KnownMd5(w.up.info.md5).Some? || !IsPending(w.up.id) ==> Read(Done(w), w.up.info.id) == Some(w.up.content)
    ensures Read(Done(w), w.up.info.id) in {Some(w.up.content), Lookup(w.client.tiers, w.up.info.id)}
  {
    CommittedKey(w);
    if KnownMd5(w.up.info.md5).Some? {
      CommitMigrates(w, hash);
      TargetRight(w, l, hash);
    } else {
      CommitWithoutChecksumTiers(w, w.up.id);
      assert Live(w.client.rows, w.up.id) && !OnTheMove(w, w.up.id);
      assert StandsAt(w, l, w.up.id);
    }
  }

  lemma BystanderReads(w: World, l: Ledger, hash: Bytes -> Key, g: Id)
    requires Coherent(w, l, hash) && Sane(w, l) && Checksum(hash)
    requires FileId(g) && g != w.up.id && g != w.up.info.id
    ensures SameOrFilled(Read(w.client, g), Read(Done(w), g), w.up.content)
  {
    CommitKeys(w, g);
    if KnownMd5(w.up.info.md5).Some? {
      CommitMigrates(w, hash);
      TargetRight(w, l, hash);
      ElsewhereSame(w.client.tiers, w.up.id, hash(w.up.content), CacheKey(w.client, g), w.up.content);
    } else {
      CommitWithoutChecksumTiers(w, CacheKey(w.client, g));
    }
  }

  /** Main result: after any such run, finishing an upload whose file and
      checksum no mishap has reached never makes a read return other bytes.
      The file could be read before and reads the same bytes under its final id
      afterwards; a creation that Drive answers without a checksum may instead
      leave that id as it was.  Every other file reads as before or, on the
      same checksum, hits where it missed. */
  lemma UploadKeepsReads(ramMax: nat, drive: map<Id, Bytes>, es: seq<Event>, hash: Bytes -> Key, g: Id)
    requires HonestHistory(ramMax, drive, es, hash)
    requires Sane(Run(FirstStart(ramMax, drive), es), LedgerOf(FirstStart(ramMax, drive), BLANK, es))
    requires var up := Run(FirstStart(ramMax, drive), es).up; FileId(g) && g != up.id && g != up.info.id
    ensures var w := Run(FirstStart(ramMax, drive), es);
            && IsRun(w, FINALISATION)
            && var r := Run(w, FINALISATION).client;
               && Read(w.client, w.up.id) == Some(w.up.content)
               && (KnownMd5(w.up.info.md5).Some? || !IsPending(w.up.id) ==> Read(r, w.up.info.id) == Some(w.up.content))
               && Read(r, w.up.info.id) in {Some(w.up.content), Lookup(w.client.tiers, w.up.info.id)}
               && SameOrFilled(Read(w.client, g), Read(r, g), w.up.content)
  {
    var w := Run(FirstStart(ramMax, drive), es);
    var l := LedgerOf(FirstStart(ramMax, drive), BLANK, es);
    HistoryCoherent(ramMax, drive, es, hash);
    FinalisationRuns(w);
    UploadReadsBack(w, l, hash);
    BystanderReads(w, l, hash, g);
  }

  // ── What a stranded placeholder leaves behind ──

  /** A placeholder that stays dirty while its BLOB goes to the real id stands
      for what was stored last exactly when nothing of it stays behind: it is
      spoilt only if it must be. */
  lemma StrandedKey(w: World, l: Ledger)
    requires At(w, RowDone) && IsPending(w.up.id) && KnownMd5(w.up.info.md5).None? && BlobKey(w.up.info) != w.up.id
    requires Dirty(w.client.rows, w.up.id) && StandsAt(w, l, w.up.id) && w.up.id !in l.spoilt
    requires BlobGoes(w.client.tiers, w.up.id, w.up.info)
    ensures var r, m := Apply(w, UploadBlob), LedgerAfter(w, l, UploadBlob);
            StandsAt(r, m, w.up.id) <==> w.up.id !in m.spoilt
  {
  }

  /** Once the RAM copies are gone. */
  function Forgotten(c: Client, k: Key): Client { c.(tiers := EvictRam(c.tiers, {k})) }

  /** Uploading what stays behind, with a checksum this time, moves a stale
      disk file along.  Once the RAM copy is evicted, a read at the checksum
      is right exactly when there is no such file or a BLOB at the checksum
      hides it. */
  lemma StrandedUpload(w: World, hash: Bytes -> Key)
    requires Durability.Inv(w) && At(w, Answered) && Answers(w.up.info, w.up.content, hash)
    requires KnownMd5(w.up.info.md5).Some? && w.up.id !in w.client.tiers.blobs
    requires w.up.id in w.client.tiers.disk ==> w.client.tiers.disk[w.up.id] != w.up.content
    requires Find(w.client.tiers.blobs, hash(w.up.content)) in {None, Some(w.up.content)}
    requires Find(w.client.tiers.disk, hash(w.up.content)) in {None, Some(w.up.content)}
    ensures var m := hash(w.up.content);
            Lookup(Forgotten(Done(w), m).tiers, m) in {None, Some(w.up.content)}
            <==> w.up.id !in w.client.tiers.disk || m in w.client.tiers.blobs
  {
    CommitMigrates(w, hash);
  }
}
