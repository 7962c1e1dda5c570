/** The FUSE callbacks that change local state, with the write buffers of open
    handles.  Each changes the client as `Client` specifies. */
module FuseOps {
  import opened Basics
  import opened ContentTiers
  import opened Names
  import opened Client
  import opened WriteBuffer
  import L = Listings
  import Obj = ObjectManager
  import N = Names
  import C = Client

  /** An entry of `write_buffers`: a RAM buffer, or a temporary file for a
      large one.  `fileId` is absent for a file created by this handle. */
  datatype Handle = Handle(parent: Id, name: string, fileId: Option<Id>, content: Bytes, tmp: Option<Sparse>)

  function Buffered(h: Handle): Bytes { if h.tmp.Some? then WriteBuffer.Content(h.tmp.value) else h.content }

  /** The id under which a flush stores the buffer. */
  function OwnId(h: Handle, fh: nat): Id { if h.fileId.Some? then h.fileId.value else PendingId(fh) }

  /** What a release goes to: a placeholder that was opened again is followed
      through its inode, in case its upload has finished. */
  function Target(n: Names, h: Handle, ino: nat, fh: nat): Id {
    if h.fileId.Some? && IsPending(h.fileId.value) && ino in n.inoToId && !IsPending(n.inoToId[ino])
    then n.inoToId[ino] else OwnId(h, fh)
  }

  /** The handle number in a placeholder's id. */
  function ParseHandle(id: Id): Option<nat>
    requires IsPending(id)
  {
    var digits := id[|PENDING|..];
    if digits != [] && (forall i :: 0 <= i < |digits| ==> '0' <= digits[i] <= '9') && DecimalValue(digits) >= 0
    then Some(DecimalValue(digits)) else None
  }

  lemma ParsesBack(fh: nat)
    ensures ParseHandle(PendingId(fh)) == Some(fh)
  {
    assert PendingId(fh)[|PENDING|..] == Decimal(fh);
    DecimalRoundTrip(fh);
  }

  function RenameHandle(h: Handle, from: Id, to: Id, name: string): Handle {
    h.(name := name, parent := if from != to then to else h.parent)
  }

  /** What a handle opened on a file starts with, and the client afterwards:
      RAM is warmed, and on a miss a download is stored and read back. */
  function Seeded(c: Client, id: Id, fetched: Option<Bytes>): Client {
    if Read(c, id).Some? || fetched.None? then GetContent(c, id)
    else GetContent(Download(GetContent(c, id), id, fetched.value), id)
  }

  function SeedBytes(c: Client, id: Id, fetched: Option<Bytes>): Bytes {
    if Read(c, id).Some? then Read(c, id).value
    else if fetched.Some? then fetched.value else []
  }

  /** The handle of a writable `open`; only a placeholder needs its parent. */
  function Opened(n: Names, id: Id, content: Bytes): Handle {
    Handle(if IsPending(id) && id in n.pendingParents then n.pendingParents[id] else "",
           if id in n.metadata then n.metadata[id].name else "", Some(id), content, None)
  }

  /** An empty write changes a RAM buffer's length only past its end, and a
      temporary file not at all. */
  function Written(h: Handle, offset: nat, data: Bytes): Bytes {
    if h.tmp.Some? && data == [] then Buffered(h) else RamStep(Buffered(h), Op.Write(offset, data))
  }

  /** A new placeholder has a name, an inode and a parent, is found by its name,
      and stands at the end of the parent's listing if that is cached. */
  ghost predicate PlaceholderKnown(n: Names, m: Names, parent: Id, p: Id, name: string) {
    var info := FileInfo(p, name, "application/octet-stream", 0, None, false);
    && m.metadata == n.metadata[p := info] && L.Injected(n, m, parent, info)
    && (p !in n.idToIno ==> m.idToIno[p] in m.inoToId && m.inoToId[m.idToIno[p]] == p)
  }

  lemma CreateRegisters(n: Names, parent: Id, p: Id, name: string)
    ensures PlaceholderKnown(n, N.Create(n, parent, p, name), parent, p, name)
  {
    L.InjectInjects(StoreMetadata(n, Placeholder(p, name)), parent, Placeholder(p, name));
  }

  /** A release makes the file dirty, with the buffer as what reads find; a
      placeholder's row has its live name and parent, another file's those of
      the handle.  An empty buffer of a placeholder changes nothing. */
  ghost predicate ReleasedTo(c: Client, d: Client, h: Handle, content: Bytes, id: Id) {
    if PENDING <= id && content == [] then d == c
    else
      && id in d.rows && d.rows[id].dirty && d.rows[id].md5.None?
      && Read(d, id) == Some(content)
      && d.rows[id].name == (if PENDING <= id && id in c.names.metadata then c.names.metadata[id].name else h.name)
      && d.rows[id].parent ==
         (if PENDING <= id && id in c.names.pendingParents then c.names.pendingParents[id] else h.parent)
      && (id in c.names.metadata ==>
            id in d.names.metadata && d.names.metadata[id] == c.names.metadata[id].(size := |content|))
      && d.rows.Keys == c.rows.Keys + {id}
      && (forall x :: x in c.rows && x != id ==> d.rows[x] == c.rows[x])
      && (forall k :: k != id ==> SlotOf(d.tiers, k) == SlotOf(c.tiers, k))
  }

  lemma ReleaseReleases(c: Client, h: Handle, content: Bytes, id: Id)
    ensures ReleasedTo(c, C.Release(c, id, content, h.name, h.parent), h, content, id)
  {
    StoreFrame(c.tiers, id, content);
  }

  /** What a write leaves in a buffer: the data where it was written, zeros in a
      gap before it, and everything else as it was. */
  ghost predicate Overwritten(before: Bytes, after: Bytes, offset: nat, data: Bytes) {
    && |after| == (if offset + |data| > |before| then offset + |data| else |before|)
    && forall i :: 0 <= i < |after| ==>
         after[i] == if offset <= i < offset + |data| then data[i - offset] else if i < |before| then before[i] else 0
  }

  lemma WriteOverwrites(content: Bytes, offset: nat, data: Bytes)
    ensures Overwritten(content, RamStep(content, Op.Write(offset, data)), offset, data)
  {
  }

  class FuseOps {
    const obj: Obj.ObjectManager
    var nextFh: nat
    var handles: map<nat, Handle>

    constructor (obj: Obj.ObjectManager)
      ensures this.obj == obj && nextFh == 1 && handles == map[]
    {
      this.obj, nextFh, handles := obj, 1, map[];
    }

    ghost predicate Valid()
      reads this
    {
      forall fh :: fh in handles ==> fh < nextFh && (handles[fh].tmp.Some? ==> WithinEnd(handles[fh].tmp.value))
    }

    /** `create`: fails if the parent inode is unknown. */
    method Create(parentIno: nat, name: string) returns (reply: Option<nat>)
      requires Valid()
      modifies this, obj
      ensures Valid()
      ensures reply == if parentIno in old(obj.inoToId) then Some(old(nextFh)) else None
      ensures reply.None? ==> obj.View() == old(obj.View()) && handles == old(handles) && nextFh == old(nextFh)
      ensures reply.Some? ==>
                var parent := old(obj.inoToId)[parentIno];
                && obj.Space() == N.Create(old(obj.Space()), parent, PendingId(old(nextFh)), name)
                && obj.Content() == old(obj.Content())
                && PlaceholderKnown(old(obj.Space()), obj.Space(), parent, PendingId(old(nextFh)), name)
                && nextFh == old(nextFh) + 1
                && handles == old(handles)[old(nextFh) := Handle(parent, name, None, [], None)]
    {
      if parentIno !in obj.inoToId {
        return None;
      }
      var parent := obj.inoToId[parentIno];
      var fh := nextFh;
      nextFh := nextFh + 1;
      var placeholder := Placeholder(PendingId(fh), name);
      ghost var n := obj.Space();
      obj.StoreMetadata(placeholder);
      ghost var m := obj.Space();
      obj.InjectPendingIntoDir(parent, placeholder);
      CreateRegisters(n, parent, PendingId(fh), name);
      handles := handles[fh := Handle(parent, name, None, [], None)];
      reply := Some(fh);
    }

    /** The RAM branch of a writable `open`; `fetched` is what a download
        stores if the content is not held locally. */
    method Open(id: Id, truncate: bool, fetched: Option<Bytes>) returns (fh: nat)
      requires Valid()
      modifies this, obj`moka, obj`disk, obj.db`blobs
      ensures Valid() && fh == old(nextFh) && nextFh == fh + 1
      ensures obj.View() == if truncate then old(obj.View()) else Seeded(old(obj.View()), id, fetched)
      ensures handles == old(handles)[fh := Opened(old(obj.Space()), id, if truncate then []
                                                   else SeedBytes(old(obj.View()), id, fetched))]
      ensures !truncate && (Read(old(obj.View()), id).Some? || fetched.Some?) ==>
                Read(obj.View(), id) == Some(handles[fh].content)
      ensures !truncate && Read(old(obj.View()), id).Some? ==> Read(obj.View(), id) == Read(old(obj.View()), id)
      ensures !truncate && Read(old(obj.View()), id).None? && fetched.Some? ==> handles[fh].content == fetched.value
      ensures truncate || (Read(old(obj.View()), id).None? && fetched.None?) ==> handles[fh].content == []
      ensures handles[fh].fileId == Some(id) && handles[fh].tmp.None?
      ensures handles[fh].name == if id in obj.metadata then obj.metadata[id].name else ""
      ensures handles[fh].parent == if PENDING <= id && id in obj.pendingParents then obj.pendingParents[id] else ""
    {
      var content := [];
      if !truncate {
        content := Seed(id, fetched);
      }
      fh := OpenBuffer(id, content);
    }

    /** The new handle of a writable `open`. */
    method OpenBuffer(id: Id, content: Bytes) returns (fh: nat)
      requires Valid()
      modifies this
      ensures Valid() && fh == old(nextFh) && nextFh == fh + 1
      ensures handles == old(handles)[fh := Opened(obj.Space(), id, content)]
      ensures handles[fh].content == content && handles[fh].fileId == Some(id) && handles[fh].tmp.None?
      ensures handles[fh].name == if id in obj.metadata then obj.metadata[id].name else ""
      ensures handles[fh].parent == if PENDING <= id && id in obj.pendingParents then obj.pendingParents[id] else ""
    {
      fh := nextFh;
      nextFh := nextFh + 1;
      var parent := if PENDING <= id && id in obj.pendingParents then obj.pendingParents[id] else "";
      var name := if id in obj.metadata then obj.metadata[id].name else "";
      handles := handles[fh := Handle(parent, name, Some(id), content, None)];
    }

    method Seed(id: Id, fetched: Option<Bytes>) returns (content: Bytes)
      modifies obj`moka, obj`disk, obj.db`blobs
      ensures obj.View() == Seeded(old(obj.View()), id, fetched)
      ensures content == SeedBytes(old(obj.View()), id, fetched)
      ensures Read(old(obj.View()), id).Some? || fetched.Some? ==> Read(obj.View(), id) == Some(content)
      ensures Read(old(obj.View()), id).Some? ==> Read(obj.View(), id) == Read(old(obj.View()), id)
      ensures Read(old(obj.View()), id).None? && fetched.Some? ==> content == fetched.value
    {
      ghost var c := obj.View();
      var found := obj.GetContent(id);
      assert CacheKey(obj.View(), id) == CacheKey(c, id);
      if found.None? {
        found := obj.ReadFullDiskContent(id);
      }
      if found.None? && fetched.Some? {
        obj.StoreContentBytes(id, fetched.value);
        assert CacheKey(obj.View(), id) == CacheKey(c, id);
        found := obj.GetContent(id);
        if found.None? {
          found := obj.ReadFullDiskContent(id);
        }
      }
      content := if found.Some? then found.value else [];
    }

    /** `write`. */
    method Write(fh: nat, offset: nat, data: Bytes) returns (ok: bool)
      requires Valid()
      modifies this`handles
      ensures Valid() && ok == (fh in old(handles))
      ensures !ok ==> handles == old(handles)
      ensures ok ==> fh in handles && handles == old(handles)[fh := handles[fh]]
      ensures ok ==> handles[fh] == old(handles)[fh].(content := handles[fh].content, tmp := handles[fh].tmp)
      ensures ok ==> Buffered(handles[fh]) == Written(old(handles)[fh], offset, data)
      ensures ok && (data != [] || old(handles)[fh].tmp.None?) ==>
                Overwritten(Buffered(old(handles)[fh]), Buffered(handles[fh]), offset, data)
      ensures ok && data == [] && old(handles)[fh].tmp.Some? ==>
                Buffered(handles[fh]) == Buffered(old(handles)[fh])
    {
      if fh !in handles {
        return false;
      }
      var h := handles[fh];
      WriteOverwrites(Buffered(h), offset, data);
      if h.tmp.Some? {
        BranchesAgreeOnce(h.tmp.value, Op.Write(offset, data));
        h := h.(tmp := Some(FileStep(h.tmp.value, Op.Write(offset, data))));
      } else {
        var content, end := h.content, offset + |data|;
        if end > |content| {
          content := WriteBuffer.Resize(content, end);
        }
        h := h.(content := content[..offset] + data + content[end..]);
      }
      handles := handles[fh := h];
      ok := true;
    }

    /** The truncation in `setattr`. */
    method Truncate(fh: nat, size: nat)
      requires Valid()
      modifies this`handles
      ensures Valid()
      ensures fh !in old(handles) ==> handles == old(handles)
      ensures fh in old(handles) ==> fh in handles && handles == old(handles)[fh := handles[fh]]
      ensures fh in old(handles) ==>
                && handles[fh] == old(handles)[fh].(content := handles[fh].content, tmp := handles[fh].tmp)
                && Buffered(handles[fh]) == RamStep(Buffered(old(handles)[fh]), Op.Truncate(size))
                && var before, after := Buffered(old(handles)[fh]), Buffered(handles[fh]);
                   && |after| == size
                   && forall i :: 0 <= i < size ==> after[i] == if i < |before| then before[i] else 0
    {
      if fh in handles {
        var h := handles[fh];
        if h.tmp.Some? {
          BranchesAgreeOnce(h.tmp.value, Op.Truncate(size));
          h := h.(tmp := Some(FileStep(h.tmp.value, Op.Truncate(size))));
        } else {
          h := h.(content := WriteBuffer.Resize(h.content, size));
        }
        handles := handles[fh := h];
      }
    }

    /** `flush` and `fsync` in write-back mode: a snapshot of a RAM buffer. */
    method Flush(fh: nat)
      requires Valid()
      modifies obj`moka, obj`disk, obj.db`blobs
      ensures Valid()
      ensures obj.View() == if fh in handles && handles[fh].tmp.None?
                            then old(obj.View()).(
                                   tiers := Store(old(obj.Content()), OwnId(handles[fh], fh), handles[fh].content))
                            else old(obj.View())
      ensures fh in handles && handles[fh].tmp.None? ==>
                var key := match handles[fh].fileId case Some(id) => id case None => PendingId(fh);
                && Lookup(obj.Content(), key) == Some(handles[fh].content)
                && forall k :: k != key ==> SlotOf(obj.Content(), k) == SlotOf(old(obj.Content()), k)
    {
      if fh in handles && handles[fh].tmp.None? {
        StoreFrame(obj.Content(), OwnId(handles[fh], fh), handles[fh].content);
        obj.StoreContentAtKey(OwnId(handles[fh], fh), handles[fh].content);
      }
    }

    /** `release` in write-back mode. */
    method Release(ino: nat, fh: nat)
      requires Valid()
      modifies this`handles, obj, obj.db`rows, obj.db`blobs
      ensures Valid() && handles == old(handles) - {fh}
      ensures fh !in old(handles) ==> obj.View() == old(obj.View())
      ensures fh in old(handles) ==>
                var h := old(handles)[fh];
                var target := Target(old(obj.Space()), h, ino, fh);
                && obj.View() == C.Release(old(obj.View()), target, Buffered(h), h.name, h.parent)
                && ReleasedTo(old(obj.View()), obj.View(), h, Buffered(h),
                              match h.fileId
                              case None => PendingId(fh)
                              case Some(id) =>
                                if PENDING <= id && ino in old(obj.inoToId) && !(PENDING <= old(obj.inoToId)[ino])
                                then old(obj.inoToId)[ino] else id)
    {
      if fh !in handles {
        assert handles - {fh} == handles;
        return;
      }
      var h := handles[fh];
      handles := handles - {fh};
      ReleaseReleases(obj.View(), h, Buffered(h), Target(obj.Space(), h, ino, fh));
      var id := OwnId(h, fh);
      if PENDING <= id && h.fileId.Some? && ino in obj.inoToId && !(PENDING <= obj.inoToId[ino]) {
        id := obj.inoToId[ino];
      }
      var content := Buffered(h);
      if PENDING <= id {
        if content == [] {
          return;
        }
        var name := if id in obj.metadata then obj.metadata[id].name else h.name;
        var parent := if id in obj.pendingParents then obj.pendingParents[id] else h.parent;
        obj.WriteLocalDirty(id, content, parent, name);
      } else {
        obj.WriteLocalDirty(id, content, h.parent, h.name);
      }
    }

    /** The end of `unlink`, once the name has been resolved and Drive has
        answered. */
    method Unlink(parent: Id, id: Id, deleted: bool)
      modifies obj
      ensures obj.View() == if !deleted then old(obj.View())
                            else var c := Forget(old(obj.View()), id); c.(names := InvalidateDir(c.names, parent))
      ensures deleted ==>
                && id !in obj.metadata && obj.db.rows == old(obj.db.rows) && obj.db.blobs == old(obj.db.blobs)
                && obj.moka == old(obj.moka) - {id} && obj.disk == old(obj.disk) - {id}
                && L.Invalidated(old(obj.Space()).(metadata := old(obj.metadata) - {id}), obj.Space(), parent)
    {
      if deleted {
        obj.RemoveMetadata(id);
        obj.InvalidateDir(parent);
      }
    }

    /** The pending branch of `rename`. */
    method RenamePlaceholder(from: Id, to: Id, id: Id, name: string)
      requires Valid() && IsPending(id)
      modifies this`handles, obj, obj.db`rows
      ensures Valid()
      ensures obj.View() == Rename(old(obj.View()), from, to, id, name)
      ensures handles == match ParseHandle(id)
                         case Some(fh) => if fh in old(handles)
                                          then old(handles)[fh := RenameHandle(old(handles)[fh], from, to, name)]
                                          else old(handles)
                         case None => old(handles)
      ensures L.Renamed(old(obj.Space()), obj.Space(), from, to, id, name)
      ensures forall fh :: id == PendingId(fh) && fh in old(handles) ==>
                var parent := if from == to then old(handles)[fh].parent else to;
                fh in handles && handles[fh] == old(handles)[fh].(name := name, parent := parent)
    {
      forall fh: nat | id == PendingId(fh) ensures ParseHandle(id) == Some(fh) {
        ParsesBack(fh);
      }
      var own := ParseHandle(id);
      if own.Some? && own.value in handles {
        var h := handles[own.value];
        h := h.(name := name);
        if from != to {
          h := h.(parent := to);
        }
        handles := handles[own.value := h];
      }
      obj.RenamePending(from, to, id, name);
    }
  }

  // ── Callbacks one after the other ──

  /** An editor opens a file for writing, overwrites bytes inside it, and closes
      it: everything else of the file stays as a read, or the download, had
      it. */
  method EditInPlace(ops: FuseOps, ino: nat, id: Id, offset: nat, data: Bytes, fetched: Option<Bytes>)
    requires ops.Valid() && ino in ops.obj.inoToId && ops.obj.inoToId[ino] == id
    requires var was := Read(ops.obj.View(), id);
             && (was.Some? || fetched.Some?)
             && offset + |data| <= (if was.Some? then |was.value| else |fetched.value|)
    modifies ops, ops.obj, ops.obj.db
    ensures var found := Read(old(ops.obj.View()), id);
            var was := if found.Some? then found.value else fetched.value;
            var now := Read(ops.obj.View(), id);
            && now.Some? && |now.value| == |was|
            && forall i :: 0 <= i < |was| ==>
                 now.value[i] == if offset <= i < offset + |data| then data[i - offset] else was[i]
  {
    var fh := ops.Open(id, false, fetched);
    var _ := ops.Write(fh, offset, data);
    ops.Release(ino, fh);
  }

  /** A placeholder that was opened again, and whose upload has finished since,
      is released to the file it became. */
  lemma TargetFollows(n: Names, h: Handle, p: Id, parent: Id, info: FileInfo, fh: nat)
    requires h.fileId == Some(p) && IsPending(p) && !IsPending(info.id) && p in n.idToIno
    ensures Target(ReplacePending(n, p, parent, info), h, n.idToIno[p], fh) == info.id
  {
  }
}
