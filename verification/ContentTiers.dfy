/** The three content tiers under one cache key: moka in RAM, the SQLite
    `small_files` BLOB table, and the disk files.  Content of at most `ramMax`
    bytes lives in the first two, larger content on disk. */
module ContentTiers {
  import opened Basics

  type Key = string

  datatype Tiers = Tiers(ramMax: nat, moka: map<Key, Bytes>, blobs: map<Key, Bytes>, disk: map<Key, Bytes>)

  function Find<V>(m: map<Key, V>, k: Key): Option<V> {
    if k in m then Some(m[k]) else None
  }

  /** What the tiers hold under one key. */
  datatype Slot = Slot(moka: Option<Bytes>, blob: Option<Bytes>, disk: Option<Bytes>)

  function SlotOf(t: Tiers, k: Key): Slot {
    Slot(Find(t.moka, k), Find(t.blobs, k), Find(t.disk, k))
  }

  /** `get_content` without its warming: RAM, then BLOB. */
  function Small(t: Tiers, k: Key): Option<Bytes> {
    if k in t.moka then Some(t.moka[k]) else Find(t.blobs, k)
  }

  /** The lookup order of every read: RAM, then BLOB, then disk. */
  function Lookup(t: Tiers, k: Key): Option<Bytes> {
    if Small(t, k).Some? then Small(t, k) else Find(t.disk, k)
  }

  function Warm(t: Tiers, k: Key): Tiers {
    if k !in t.moka && k in t.blobs then t.(moka := t.moka[k := t.blobs[k]]) else t
  }

  /** `store_content_at_key`. */
  function Store(t: Tiers, k: Key, c: Bytes): Tiers {
    if |c| <= t.ramMax then t.(blobs := t.blobs[k := c], moka := t.moka[k := c])
    else t.(blobs := t.blobs - {k}, moka := t.moka - {k}, disk := t.disk[k := c])
  }

  /** Moving one table entry, replacing whatever the target held. */
  function MoveKey(m: map<Key, Bytes>, from: Key, to: Key): map<Key, Bytes> {
    if from != to && from in m then m[to := m[from]] - {from} else m
  }

  /** `migrate_cache_key`. */
  function Migrate(t: Tiers, from: Key, to: Key): Tiers {
    t.(moka := MoveKey(t.moka, from, to), blobs := MoveKey(t.blobs, from, to), disk := MoveKey(t.disk, from, to))
  }

  function EvictRam(t: Tiers, ks: set<Key>): Tiers { t.(moka := t.moka - ks) }

  function EvictDisk(t: Tiers, ks: set<Key>): Tiers { t.(disk := t.disk - ks) }

  // ── The tiers refine one map ──

  datatype TierEvent =
    | StoreAt(k: Key, c: Bytes)
    | ReadAt(k: Key)
    | DropRam(ks: set<Key>)
    | DropDisk(ks: set<Key>)
    | MigrateTo(from: Key, to: Key)

  function TierApply(t: Tiers, e: TierEvent): Tiers {
    match e
    case StoreAt(k, c) => Store(t, k, c)
    case ReadAt(k) => Warm(t, k)
    case DropRam(ks) => EvictRam(t, ks)
    case DropDisk(ks) => EvictDisk(t, ks)
    case MigrateTo(from, to) => Migrate(t, from, to)
  }

  /** The same event on the specification: one plain map of last stored bytes. */
  function LatestApply(latest: map<Key, Bytes>, e: TierEvent): map<Key, Bytes> {
    match e
    case StoreAt(k, c) => latest[k := c]
    case MigrateTo(from, to) => MoveKey(latest, from, to)
    case _ => latest
  }

  /** A migration target is absent or holds equal bytes. */
  ghost predicate TargetAgrees(latest: map<Key, Bytes>, from: Key, to: Key) {
    from in latest && to in latest ==> latest[from] == latest[to]
  }

  ghost predicate TierLegal(latest: map<Key, Bytes>, e: TierEvent) {
    e.MigrateTo? ==> TargetAgrees(latest, e.from, e.to)
  }

  /** How the tiers represent the specification map.  A disk file may be stale
      only while a BLOB shadows it. */
  ghost predicate Represents(t: Tiers, latest: map<Key, Bytes>) {
    && (forall k :: k in t.moka ==> k in t.blobs && t.blobs[k] == t.moka[k])
    && (forall k :: k in t.blobs ==> k in latest && latest[k] == t.blobs[k])
    && (forall k :: k in latest && |latest[k]| <= t.ramMax ==> k in t.blobs)
    && (forall k :: k in latest && |latest[k]| > t.ramMax ==> k !in t.blobs)
    && (forall k :: k in t.disk ==> k in latest && (k !in t.blobs ==> latest[k] == t.disk[k]))
    && (forall k :: k in t.disk ==> |t.disk[k]| > t.ramMax)
  }

  /** A lookup hits the last stored bytes or misses, and misses nothing small. */
  ghost predicate ReadsLatest(t: Tiers, latest: map<Key, Bytes>) {
    forall k ::
      && (Lookup(t, k).Some? ==> k in latest && Lookup(t, k).value == latest[k])
      && (k in latest && |latest[k]| <= t.ramMax ==> Lookup(t, k) == Some(latest[k]))
  }

  lemma RepresentsReads(t: Tiers, latest: map<Key, Bytes>)
    requires Represents(t, latest)
    ensures ReadsLatest(t, latest)
  {
  }

  /** The same for one key: what its slot may hold after `last` was stored. */
  predicate Stands(slot: Slot, last: Option<Bytes>, ramMax: nat) {
    && (slot.moka.Some? ==> slot.blob == slot.moka)
    && (slot.blob.Some? ==> last == slot.blob && |slot.blob.value| <= ramMax)
    && (last.Some? && |last.value| <= ramMax ==> slot.blob.Some?)
    && (slot.disk.Some? ==> last.Some? && (slot.blob.None? ==> last == slot.disk) && |slot.disk.value| > ramMax)
  }

  /** The tiers represent a map exactly when every key's slot does. */
  lemma RepresentsAt(t: Tiers, latest: map<Key, Bytes>, k: Key)
    requires Represents(t, latest)
    ensures Stands(SlotOf(t, k), Find(latest, k), t.ramMax)
  {
  }

  lemma StandsEverywhere(t: Tiers, latest: map<Key, Bytes>)
    requires forall k :: Stands(SlotOf(t, k), Find(latest, k), t.ramMax)
    ensures Represents(t, latest)
  {
    forall k | k in t.moka ensures k in t.blobs && t.blobs[k] == t.moka[k] {
      assert Stands(SlotOf(t, k), Find(latest, k), t.ramMax);
    }
    forall k | k in t.blobs ensures k in latest && latest[k] == t.blobs[k] && |latest[k]| <= t.ramMax {
      assert Stands(SlotOf(t, k), Find(latest, k), t.ramMax);
    }
    forall k | k in latest && |latest[k]| <= t.ramMax ensures k in t.blobs {
      assert Stands(SlotOf(t, k), Find(latest, k), t.ramMax);
    }
    forall k | k in t.disk ensures k in latest && (k !in t.blobs ==> latest[k] == t.disk[k]) && |t.disk[k]| > t.ramMax {
      assert Stands(SlotOf(t, k), Find(latest, k), t.ramMax);
    }
  }

  lemma StoreRepresents(t: Tiers, latest: map<Key, Bytes>, k: Key, c: Bytes)
    requires Represents(t, latest)
    ensures Represents(Store(t, k, c), latest[k := c])
  {
  }

  lemma MigrateRepresents(t: Tiers, latest: map<Key, Bytes>, from: Key, to: Key)
    requires Represents(t, latest) && TargetAgrees(latest, from, to)
    ensures Represents(Migrate(t, from, to), MoveKey(latest, from, to))
  {
    var d := Migrate(t, from, to);
    forall k | k in d.disk
      ensures k in MoveKey(latest, from, to) && |d.disk[k]| > d.ramMax
      ensures k !in d.blobs ==> MoveKey(latest, from, to)[k] == d.disk[k]
    {
      assert if k == to && from != to && from in t.disk then d.disk[k] == t.disk[from] else d.disk[k] == t.disk[k];
    }
  }

  lemma RepresentsStep(t: Tiers, latest: map<Key, Bytes>, e: TierEvent)
    requires Represents(t, latest) && TierLegal(latest, e)
    ensures Represents(TierApply(t, e), LatestApply(latest, e))
    ensures TierApply(t, e).ramMax == t.ramMax
  {
    match e
    case StoreAt(k, c) => StoreRepresents(t, latest, k, c);
    case MigrateTo(from, to) => MigrateRepresents(t, latest, from, to);
    case _ =>
  }

  ghost predicate TierLegalRun(latest: map<Key, Bytes>, es: seq<TierEvent>)
    decreases |es|
  {
    es == [] || (TierLegal(latest, es[0]) && TierLegalRun(LatestApply(latest, es[0]), es[1..]))
  }

  function TierRun(t: Tiers, es: seq<TierEvent>): Tiers
    decreases |es|
  {
    if es == [] then t else TierRun(TierApply(t, es[0]), es[1..])
  }

  function LatestRun(latest: map<Key, Bytes>, es: seq<TierEvent>): map<Key, Bytes>
    decreases |es|
  {
    if es == [] then latest else LatestRun(LatestApply(latest, es[0]), es[1..])
  }

  lemma {:induction false} RepresentsRun(t: Tiers, latest: map<Key, Bytes>, es: seq<TierEvent>)
    requires Represents(t, latest) && TierLegalRun(latest, es)
    ensures Represents(TierRun(t, es), LatestRun(latest, es))
    decreases |es|
  {
    if es != [] {
      RepresentsStep(t, latest, es[0]);
      RepresentsRun(TierApply(t, es[0]), LatestApply(latest, es[0]), es[1..]);
    }
  }

  /** Main result: through any sequence of stores, warming reads, evictions
      and migrations, a lookup returns the last bytes stored at the key or
      misses, and never misses content that fits in RAM. */
  lemma TiersRefineMap(ramMax: nat, es: seq<TierEvent>)
    requires TierLegalRun(map[], es)
    ensures ReadsLatest(TierRun(Tiers(ramMax, map[], map[], map[]), es), LatestRun(map[], es))
  {
    var empty := Tiers(ramMax, map[], map[], map[]);
    RepresentsRun(empty, map[], es);
    RepresentsReads(TierRun(empty, es), LatestRun(map[], es));
  }

  /** No tier of the target stands in front of the bytes being moved. */
  predicate Unshadowed(t: Tiers, from: Key, to: Key) {
    || from in t.moka
    || if to in t.moka then Some(t.moka[to]) == Lookup(t, from)
       else from in t.blobs || to !in t.blobs || Some(t.blobs[to]) == Lookup(t, from)
  }

  /** Exactly when a migration carries the bytes of a key over, for any state
      of the tiers. */
  lemma MigrateCarries(t: Tiers, from: Key, to: Key)
    requires from != to && Lookup(t, from).Some?
    ensures Lookup(Migrate(t, from, to), to) == Lookup(t, from) <==> Unshadowed(t, from, to)
  {
  }

  // ── Frames ──

  lemma StoreFrame(t: Tiers, k: Key, c: Bytes)
    ensures forall j :: j != k ==> SlotOf(Store(t, k, c), j) == SlotOf(t, j)
    ensures Lookup(Store(t, k, c), k) == Some(c)
  {
  }

  lemma MigrateFrame(t: Tiers, from: Key, to: Key)
    ensures forall j :: j != from && j != to ==> SlotOf(Migrate(t, from, to), j) == SlotOf(t, j)
  {
  }
}
