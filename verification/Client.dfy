/** The client's local state and what each operation does to it: the namespace,
    the SQLite metadata rows, and the content tiers. */
module Client {
  import opened Basics
  import opened ContentTiers
  import opened Names

  /** A row of the `metadata` table. */
  datatype Row = Row(inode: nat, parent: Id, name: string, md5: Option<string>, dirty: bool)

  datatype Client = Client(names: Names, rows: map<Id, Row>, tiers: Tiers)

  predicate Dirty(rows: map<Id, Row>, id: Id) { id in rows && rows[id].dirty }

  /** `INSERT … ON CONFLICT DO UPDATE`: an existing row keeps its inode. */
  function Upsert(rows: map<Id, Row>, id: Id, row: Row): map<Id, Row> {
    rows[id := if id in rows then row.(inode := rows[id].inode) else row]
  }

  function KnownMd5(md5: Option<string>): Option<string> {
    if md5 == Some("") then None else md5
  }

  /** `cache_key_for`: the id while pending or dirty, the MD5 once clean. */
  function CacheKey(c: Client, id: Id): Key {
    if IsPending(id) || Dirty(c.rows, id) || id !in c.names.metadata then id
    else
      match KnownMd5(c.names.metadata[id].md5)
      case Some(m) => m
      case None => id
  }

  /** What a read of `id` finds locally. */
  function Read(c: Client, id: Id): Option<Bytes> { Lookup(c.tiers, CacheKey(c, id)) }

  /** The warming that `get_content` does. */
  function GetContent(c: Client, id: Id): Client { c.(tiers := Warm(c.tiers, CacheKey(c, id))) }

  /** `store_content_bytes`. */
  function Download(c: Client, id: Id, content: Bytes): Client {
    c.(tiers := Store(c.tiers, CacheKey(c, id), content))
  }

  function Resize(n: Names, id: Id, size: nat): Names {
    if id in n.metadata then n.(metadata := n.metadata[id := n.metadata[id].(size := size)]) else n
  }

  /** `write_local_dirty`. */
  function WriteLocalDirty(c: Client, id: Id, content: Bytes, parent: Id, name: string): Client {
    var n := Alloc(Resize(c.names, id, |content|), id);
    Client(n, Upsert(c.rows, id, Row(n.idToIno[id], parent, name, None, true)), Store(c.tiers, id, content))
  }

  /** The write-back branch of `release`, after the handle's id is resolved:
      an empty new file is skipped, a placeholder takes its live name and
      parent, a real file those of the handle. */
  function Release(c: Client, id: Id, content: Bytes, name: string, parent: Id): Client {
    if !IsPending(id) then WriteLocalDirty(c, id, content, parent, name)
    else if content == [] then c
    else
      WriteLocalDirty(c, id, content,
                      if id in c.names.pendingParents then c.names.pendingParents[id] else parent,
                      if id in c.names.metadata then c.names.metadata[id].name else name)
  }

  /** `rename_pending`. */
  function Rename(c: Client, from: Id, to: Id, p: Id, name: string): Client {
    c.(names := RenamePending(c.names, from, to, p, name),
       rows := if p in c.rows then Upsert(c.rows, p, c.rows[p].(parent := to, name := name)) else c.rows)
  }

  // ── Uploading ──

  /** An empty small copy hides a disk file that has content. */
  predicate StaleOverride(c: Client, id: Id) {
    var k := CacheKey(c, id);
    Small(c.tiers, k) == Some([]) && k in c.tiers.disk && c.tiers.disk[k] != []
  }

  /** The bytes `upload_entry` hands to Drive, or none if it skips or defers. */
  function Payload(c: Client, id: Id): Option<Bytes> {
    var found := if StaleOverride(c, id) then Find(c.tiers.disk, CacheKey(c, id)) else Read(c, id);
    if IsPending(id) && found == Some([]) then None else found
  }

  /** `clear_dirty_after_upload`. */
  function ClearDirty(rows: map<Id, Row>, id: Id, md5: Option<string>): map<Id, Row> {
    if id in rows then rows[id := rows[id].(dirty := false, md5 := md5)] else rows
  }

  function MigrateToMd5(t: Tiers, from: Key, md5: Option<string>): Tiers {
    match KnownMd5(md5)
    case Some(m) => Migrate(t, from, m)
    case None => t
  }

  /** The end of a successful update. */
  function CommitUpdate(c: Client, id: Id, info: FileInfo): Client {
    Client(StoreMetadata(c.names, info), ClearDirty(c.rows, id, info.md5), MigrateToMd5(c.tiers, id, info.md5))
  }

  /** The two `UPDATE`s of `finalize_new_file`; each fails silently when the
      new primary key is taken. */
  function FinalizeRows(rows: map<Id, Row>, p: Id, id: Id, md5: Option<string>): map<Id, Row> {
    if p in rows && id !in rows then (rows - {p})[id := rows[p].(dirty := false, md5 := md5)] else rows
  }

  function FinalizeBlobs(blobs: map<Key, Bytes>, p: Id, id: Id, md5: Option<string>): map<Key, Bytes> {
    var to := if md5.Some? then md5.value else id;
    if p in blobs && to !in blobs then (blobs - {p})[to := blobs[p]] else blobs
  }

  /** The end of a successful creation. */
  function CommitCreate(c: Client, p: Id, parent: Id, info: FileInfo): Client {
    var t := c.tiers.(blobs := FinalizeBlobs(c.tiers.blobs, p, info.id, info.md5));
    Client(ReplacePending(c.names, p, parent, info), FinalizeRows(c.rows, p, info.id, info.md5),
           MigrateToMd5(t, p, info.md5))
  }

  // The calls that finalising an upload consists of.  First the row:

  function CommitRow(c: Client, id: Id, info: FileInfo): Client {
    c.(rows := if IsPending(id) then FinalizeRows(c.rows, id, info.id, info.md5) else ClearDirty(c.rows, id, info.md5))
  }

  /** Then the BLOB: the second statement of `finalize_new_file`, or
      `migrate_small_file_key`. */
  function CommitBlob(c: Client, id: Id, info: FileInfo): Client {
    c.(tiers := c.tiers.(blobs :=
      if IsPending(id) then FinalizeBlobs(c.tiers.blobs, id, info.id, info.md5)
      else match KnownMd5(info.md5) case Some(m) => MoveKey(c.tiers.blobs, id, m) case None => c.tiers.blobs))
  }

  /** Then `migrate_cache_key`. */
  function CommitContent(c: Client, id: Id, info: FileInfo): Client {
    c.(tiers := MigrateToMd5(c.tiers, id, info.md5))
  }

  /** And last the namespace. */
  function CommitNames(c: Client, id: Id, parent: Id, info: FileInfo): Client {
    c.(names := if IsPending(id) then ReplacePending(c.names, id, parent, info) else StoreMetadata(c.names, info))
  }

  /** The whole finalisation, if nothing comes in between. */
  function Commit(c: Client, id: Id, parent: Id, info: FileInfo): Client {
    if IsPending(id) then CommitCreate(c, id, parent, info) else CommitUpdate(c, id, info)
  }

  lemma CommitInParts(c: Client, id: Id, parent: Id, info: FileInfo)
    ensures CommitNames(CommitContent(CommitBlob(CommitRow(c, id, info), id, info), id, info), id, parent, info)
            == Commit(c, id, parent, info)
  {
  }

  /** A creation that Drive answers with 404: the row goes, then the
      placeholder. */
  function AbandonRow(c: Client, p: Id): Client {
    c.(rows := if Dirty(c.rows, p) then c.rows - {p} else c.rows)
  }

  function AbandonNames(c: Client, p: Id, parent: Id): Client {
    c.(names := RemovePending(c.names, parent, p), tiers := EvictRam(c.tiers, {p}))
  }

  function Abandon(c: Client, p: Id, parent: Id): Client { AbandonNames(AbandonRow(c, p), p, parent) }

  // ── Deletion, the change feed, and restarts ──

  /** `remove_metadata`, after Drive has deleted a file. */
  function Forget(c: Client, id: Id): Client {
    c.(names := c.names.(metadata := c.names.metadata - {id}), tiers := EvictDisk(EvictRam(c.tiers, {id}), {id}))
  }

  datatype Change = Change(id: Id, removed: bool, file: Option<FileInfo>)

  /** Dropping the content of a changed file, and its rows in both tables. */
  function DropEntry(c: Client, id: Id): Client {
    var t := EvictDisk(EvictRam(c.tiers, {id}), {CacheKey(c, id), id});
    c.(rows := c.rows - {id}, tiers := t.(blobs := t.blobs - {id}))
  }

  function EvictMetadata(n: Names, id: Id): Names { n.(metadata := n.metadata - {id}) }

  predicate ContentChanged(rows: map<Id, Row>, ch: Change) {
    && ch.file.Some? && ch.file.value.md5.Some?
    && ch.id in rows && rows[ch.id].md5.Some? && rows[ch.id].md5 != ch.file.value.md5
  }

  /** The change takes the file's content and rows away, if only to write a new
      row. */
  predicate Drops(c: Client, ch: Change) { ch.removed || ch.file.None? || ContentChanged(c.rows, ch) }

  /** `apply_change`. */
  function ApplyChange(c: Client, ch: Change): Client {
    if ch.removed || ch.file.None? then
      var d := DropEntry(c, ch.id);
      d.(names := EvictMetadata(d.names, ch.id))
    else
      var d := if ContentChanged(c.rows, ch) then DropEntry(c, ch.id) else c;
      var n := Alloc(StoreMetadata(EvictMetadata(d.names, ch.id), ch.file.value), ch.id);
      d.(names := n, rows := Upsert(d.rows, ch.id, Row(n.idToIno[ch.id], "", "", ch.file.value.md5, false)))
  }

  predicate EndsWith(s: string, suffix: string) {
    |suffix| <= |s| && s[|s| - |suffix|..] == suffix
  }

  /** The keys that garbage collection at startup keeps. */
  ghost predicate GcKeeps(rows: map<Id, Row>, k: Key) {
    || EndsWith(k, ".tmp")
    || (k != "" && exists id :: id in rows && rows[id].md5 == Some(k))
    || Dirty(rows, k)
  }

  ghost function Collect(rows: map<Id, Row>, disk: map<Key, Bytes>): map<Key, Bytes> {
    map k | k in disk && GcKeeps(rows, k) :: disk[k]
  }

  /** The files the cache cleaner may unlink. */
  predicate Evictable(rows: map<Id, Row>, k: Key) {
    !EndsWith(k, ".tmp") && !IsPending(k) && !Dirty(rows, k)
  }

  /** The rows of the metadata table in some order. */
  ghost predicate Enumerates(order: seq<(Id, nat)>, rows: map<Id, Row>) {
    && (forall i :: 0 <= i < |order| ==> order[i].0 in rows && order[i].1 == rows[order[i].0].inode)
    && (forall i, j :: 0 <= i < j < |order| ==> order[i].0 != order[j].0)
    && (forall id :: id in rows ==> exists i :: 0 <= i < |order| && order[i].0 == id)
  }

  /** A crash and the next start: only SQLite and the disk files survive. */
  ghost function Restart(c: Client, order: seq<(Id, nat)>): Client {
    Client(Restore(order), c.rows, c.tiers.(moka := map[], disk := Collect(c.rows, c.tiers.disk)))
  }
}
