/** The in-memory namespace of `ObjectManager`: the two-way inode map, file
    metadata, cached directory listings, the name index, and the parents of
    pending placeholders. */
module Names {
  import opened Basics

  type Id = string

  datatype FileInfo = FileInfo(id: Id, name: string, mime: string, size: nat, md5: Option<string>, isFolder: bool)

  datatype Names = Names(
    nextIno: nat,
    inoToId: map<nat, Id>,
    idToIno: map<Id, nat>,
    metadata: map<Id, FileInfo>,
    dirCache: map<Id, seq<FileInfo>>,
    nameIndex: map<string, Id>,
    pendingParents: map<Id, Id>)

  const ROOT_INO: nat := 1
  const ROOT_ID: Id := "root"
  const PENDING: string := "__pending__"

  predicate IsPending(id: Id) { PENDING <= id }

  function PendingId(fh: nat): (id: Id)
    ensures IsPending(id)
  {
    PENDING + Decimal(fh)
  }

  lemma PendingIdInjective(m: nat, n: nat)
    requires PendingId(m) == PendingId(n)
    ensures m == n
  {
    assert PendingId(m)[|PENDING|..] == Decimal(m);
    assert PendingId(n)[|PENDING|..] == Decimal(n);
    DecimalInjective(m, n);
  }

  predicate IsWorkspace(mime: string) {
    "application/vnd.google-apps." <= mime && mime != "application/vnd.google-apps.folder"
  }

  function NameKey(parent: Id, name: string, mime: string): string {
    if IsWorkspace(mime) then parent + ":" + name + ".desktop" else parent + ":" + name
  }

  /** `get_or_alloc_ino`. */
  function Alloc(n: Names, id: Id): Names {
    if id in n.idToIno then n
    else n.(nextIno := n.nextIno + 1, inoToId := n.inoToId[n.nextIno := id], idToIno := n.idToIno[id := n.nextIno])
  }

  /** `store_metadata`. */
  function StoreMetadata(n: Names, info: FileInfo): Names {
    var m := Alloc(n, info.id);
    m.(metadata := m.metadata[info.id := info])
  }

  predicate HasId(files: seq<FileInfo>, id: Id) { exists i :: 0 <= i < |files| && files[i].id == id }

  function AddMissing(files: seq<FileInfo>, info: FileInfo): seq<FileInfo> {
    if HasId(files, info.id) then files else files + [info]
  }

  /** The first loop of `store_dir_listing`: register every listed file. */
  function RegisterAll(n: Names, parent: Id, files: seq<FileInfo>): Names
    decreases |files|
  {
    if files == [] then n
    else
      var m := RegisterAll(n, parent, files[..|files| - 1]);
      var f := files[|files| - 1];
      var a := StoreMetadata(m, f);
      a.(nameIndex := a.nameIndex[NameKey(parent, f.name, f.mime) := f.id])
  }

  function PendingOnly(files: seq<FileInfo>): seq<FileInfo> {
    if files == [] then []
    else
      var rest := PendingOnly(files[..|files| - 1]);
      if IsPending(files[|files| - 1].id) then rest + [files[|files| - 1]] else rest
  }

  /** The second loop: carry placeholders over from the outgoing listing. */
  function CarryAll(files: seq<FileInfo>, carried: seq<FileInfo>): seq<FileInfo> {
    if carried == [] then files
    else AddMissing(CarryAll(files, carried[..|carried| - 1]), carried[|carried| - 1])
  }

  /** The third loop: re-inject placeholders known by their parent only.
      `order` is the order in which the `pending_parents` map is iterated. */
  function InjectKnown(n: Names, parent: Id, files: seq<FileInfo>, order: seq<Id>): seq<FileInfo> {
    if order == [] then files
    else
      var p := order[|order| - 1];
      var acc := InjectKnown(n, parent, files, order[..|order| - 1]);
      if p in n.pendingParents && n.pendingParents[p] == parent && p in n.metadata && !HasId(acc, p)
      then acc + [n.metadata[p]] else acc
  }

  function Cached(n: Names, parent: Id): seq<FileInfo> {
    if parent in n.dirCache then n.dirCache[parent] else []
  }

  /** `store_dir_listing`. */
  function StoreListing(n: Names, parent: Id, files: seq<FileInfo>, order: seq<Id>): Names {
    var m := RegisterAll(n, parent, files);
    var carried := CarryAll(files, PendingOnly(Cached(n, parent)));
    m.(dirCache := m.dirCache[parent := InjectKnown(m, parent, carried, order)])
  }

  /** Removing the name-index entries of the non-pending files of a listing. */
  function PruneIndex(index: map<string, Id>, parent: Id, files: seq<FileInfo>): map<string, Id> {
    if files == [] then index
    else
      var f := files[|files| - 1];
      var rest := PruneIndex(index, parent, files[..|files| - 1]);
      if IsPending(f.id) then rest else rest - {NameKey(parent, f.name, f.mime)}
  }

  /** `invalidate_dir`. */
  function InvalidateDir(n: Names, parent: Id): Names {
    n.(nameIndex := PruneIndex(n.nameIndex, parent, Cached(n, parent)), dirCache := n.dirCache - {parent})
  }

  /** `inject_pending_into_dir`. */
  function Inject(n: Names, parent: Id, info: FileInfo): Names {
    var m := Alloc(n, info.id);
    m.(pendingParents := m.pendingParents[info.id := parent],
       nameIndex := m.nameIndex[NameKey(parent, info.name, info.mime) := info.id],
       dirCache := if parent in m.dirCache then m.dirCache[parent := AddMissing(m.dirCache[parent], info)]
                   else m.dirCache)
  }

  /** The placeholder that `create` registers. */
  function Placeholder(p: Id, name: string): FileInfo {
    FileInfo(p, name, "application/octet-stream", 0, None, false)
  }

  /** The namespace part of the FUSE `create` callback. */
  function Create(n: Names, parent: Id, p: Id, name: string): Names {
    Inject(StoreMetadata(n, Placeholder(p, name)), parent, Placeholder(p, name))
  }

  function Without(files: seq<FileInfo>, id: Id): seq<FileInfo> {
    if files == [] then []
    else
      var rest := Without(files[..|files| - 1], id);
      if files[|files| - 1].id == id then rest else rest + [files[|files| - 1]]
  }

  /** The first position that holds an id, or the length. */
  function PositionOf(files: seq<FileInfo>, id: Id): (i: nat)
    ensures i <= |files|
    ensures i < |files| ==> files[i].id == id
    ensures forall j :: 0 <= j < i ==> files[j].id != id
  {
    if files == [] || files[0].id == id then 0 else 1 + PositionOf(files[1..], id)
  }

  function RenameEntry(files: seq<FileInfo>, id: Id, name: string): seq<FileInfo> {
    var i := PositionOf(files, id);
    if i < |files| then files[i := files[i].(name := name)] else files
  }

  function RenameInCache(cache: map<Id, seq<FileInfo>>, from: Id, to: Id, p: Id, name: string, info: Option<FileInfo>)
    : map<Id, seq<FileInfo>>
  {
    if from == to then
      if from in cache then cache[from := RenameEntry(cache[from], p, name)] else cache
    else
      var left := if from in cache then cache[from := Without(cache[from], p)] else cache;
      if info.Some? && to in left then left[to := left[to] + [info.value]] else left
  }

  /** The namespace part of `rename_pending`. */
  function RenamePending(n: Names, from: Id, to: Id, p: Id, name: string): Names {
    var known := p in n.metadata;
    var info := if known then n.metadata[p].(name := name) else Placeholder(p, name);
    n.(nameIndex := if known
                    then (n.nameIndex - {NameKey(from, n.metadata[p].name, info.mime)})[
                           NameKey(to, name, info.mime) := p]
                    else n.nameIndex,
       metadata := if known then n.metadata[p := info] else n.metadata,
       dirCache := RenameInCache(n.dirCache, from, to, p, name, if known then Some(info) else None),
       pendingParents := n.pendingParents[p := to])
  }

  /** Dropping the inode of an id whose placeholder goes away. */
  function DropIno(n: Names, id: Id): Names {
    if id in n.idToIno then n.(idToIno := n.idToIno - {id}, inoToId := n.inoToId - {n.idToIno[id]}) else n
  }

  /** `remove_pending_from_dir`. */
  function RemovePending(n: Names, parent: Id, p: Id): Names {
    DropIno(n, p).(
      pendingParents := n.pendingParents - {p},
      metadata := n.metadata - {p},
      nameIndex := if p in n.metadata then n.nameIndex - {NameKey(parent, n.metadata[p].name, n.metadata[p].mime)}
                   else n.nameIndex,
      dirCache := if parent in n.dirCache then n.dirCache[parent := Without(n.dirCache[parent], p)] else n.dirCache)
  }

  function SwapIno(n: Names, p: Id, id: Id): Names {
    if p in n.idToIno then
      n.(inoToId := n.inoToId[n.idToIno[p] := id], idToIno := (n.idToIno - {p})[id := n.idToIno[p]])
    else n
  }

  function ReplaceEntry(files: seq<FileInfo>, p: Id, info: FileInfo): seq<FileInfo> {
    var i := PositionOf(files, p);
    if i < |files| then files[i := info] else files + [info]
  }

  /** `replace_pending_id`. */
  function ReplacePending(n: Names, p: Id, parent: Id, info: FileInfo): Names {
    var index := if p in n.metadata then n.nameIndex - {NameKey(parent, n.metadata[p].name, n.metadata[p].mime)}
                 else n.nameIndex;
    SwapIno(n, p, info.id).(
      pendingParents := n.pendingParents - {p},
      nameIndex := index[NameKey(parent, info.name, info.mime) := info.id],
      metadata := (n.metadata - {p})[info.id := info],
      dirCache := if parent in n.dirCache then n.dirCache[parent := ReplaceEntry(n.dirCache[parent], p, info)]
                  else n.dirCache)
  }

  // ── Starting a mount ──

  const FRESH_NAMES :=
    Names(ROOT_INO + 1, map[ROOT_INO := ROOT_ID], map[ROOT_ID := ROOT_INO], map[], map[], map[], map[])

  /** One row of the restore loop in the constructor.  Rows with an inode
      below the root's or an empty id are skipped as corrupt. */
  function RestoreRow(n: Names, id: Id, ino: nat): Names {
    if ino < ROOT_INO || id == "" then n
    else
      n.(idToIno := if id in n.idToIno then n.idToIno else n.idToIno[id := ino],
         inoToId := if ino in n.inoToId then n.inoToId else n.inoToId[ino := id],
         nextIno := if ino + 1 > n.nextIno then ino + 1 else n.nextIno)
  }

  /** The whole restore, over the rows in the order the query returns them. */
  function Restore(rows: seq<(Id, nat)>): Names {
    if rows == [] then FRESH_NAMES
    else
      var last := rows[|rows| - 1];
      RestoreRow(Restore(rows[..|rows| - 1]), last.0, last.1)
  }

  /** A restore brings back inodes and nothing else. */
  lemma {:induction false} RestoredIsEmpty(rows: seq<(Id, nat)>)
    ensures var n := Restore(rows);
            n.metadata == map[] && n.dirCache == map[] && n.nameIndex == map[] && n.pendingParents == map[]
    decreases |rows|
  {
    if rows != [] {
      RestoredIsEmpty(rows[..|rows| - 1]);
    }
  }
}
