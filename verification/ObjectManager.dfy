/** `ObjectManager`: the in-memory namespace and the content tiers, updated in
    place.  Each method is proved to do to the abstract client what `Names`,
    `ContentTiers` and `Client` specify, so the results about runs apply to
    these bodies. */
module ObjectManager {
  import opened Basics
  import opened ContentTiers
  import opened Names
  import opened Client
  import Db = DbManager
  import L = Listings
  import N = Names
  import C = Client

  function WithoutOldName(n: Names, parent: Id, p: Id): map<string, Id> {
    if p in n.metadata then n.nameIndex - {NameKey(parent, n.metadata[p].name, n.metadata[p].mime)} else n.nameIndex
  }

  /** Registering a listing leaves the cached listings and the placeholders'
      parents alone. */
  lemma {:induction false} RegisterKeeps(n: Names, parent: Id, files: seq<FileInfo>)
    ensures RegisterAll(n, parent, files).dirCache == n.dirCache
    ensures RegisterAll(n, parent, files).pendingParents == n.pendingParents
  {
    if files != [] {
      RegisterKeeps(n, parent, files[..|files| - 1]);
    }
  }

  class ObjectManager {
    const db: Db.DbManager
    const ramMax: nat
    var nextIno: nat
    var inoToId: map<nat, Id>
    var idToIno: map<Id, nat>
    var metadata: map<Id, FileInfo>
    var dirCache: map<Id, seq<FileInfo>>
    var nameIndex: map<string, Id>
    var pendingParents: map<Id, Id>
    var moka: map<Key, Bytes>
    var disk: map<Key, Bytes>

    /** The namespace. */
    ghost function Space(): Names
      reads this
    {
      Names(nextIno, inoToId, idToIno, metadata, dirCache, nameIndex, pendingParents)
    }

    ghost function Content(): Tiers
      reads this, db
    {
      Tiers(ramMax, moka, db.blobs, disk)
    }

    /** The client that the object manager and its database make up. */
    ghost function View(): Client
      reads this, db
    {
      Client(Space(), db.rows, Content())
    }

    // ── Inodes ──

    /** The constructor with a database: garbage collection of the content
        directory, then the restore of persisted inodes. */
    constructor (db: Db.DbManager, ramMax: nat, disk: map<Key, Bytes>)
      ensures this.db == db && this.ramMax == ramMax
      ensures exists order :: Enumerates(order, db.rows) &&
                View() == Restart(Client(FRESH_NAMES, db.rows, Tiers(ramMax, map[], db.blobs, disk)), order)
      ensures moka == map[] && metadata == map[] && dirCache == map[] && nameIndex == map[] && pendingParents == map[]
    {
      this.db, this.ramMax := db, ramMax;
      this.metadata, this.dirCache, this.nameIndex, this.pendingParents := map[], map[], map[], map[];
      this.moka := map[];
      this.inoToId, this.idToIno, this.nextIno := map[ROOT_INO := ROOT_ID], map[ROOT_ID := ROOT_INO], ROOT_INO + 1;
      this.disk := map[];
      new;
      StartUp(disk);
    }

    /** Collecting the files found, and restoring inodes. */
    method StartUp(found: map<Key, Bytes>)
      requires Space() == FRESH_NAMES && moka == map[]
      modifies this`disk, this`nextIno, this`inoToId, this`idToIno
      ensures exists order :: Enumerates(order, db.rows) &&
                View() == Restart(Client(FRESH_NAMES, db.rows, Tiers(ramMax, map[], db.blobs, found)), order)
    {
      disk := db.RunGc(found);
      var order := db.LoadInodeMap();
      RestoreInodes(order);
      assert Content() == Tiers(ramMax, map[], db.blobs, Collect(db.rows, found));
      assert View() == Restart(Client(FRESH_NAMES, db.rows, Tiers(ramMax, map[], db.blobs, found)), order);
    }

    /** The restore of persisted inodes in the constructor. */
    method RestoreInodes(order: seq<(Id, nat)>)
      requires Space() == FRESH_NAMES
      modifies this`nextIno, this`inoToId, this`idToIno
      ensures Space() == Restore(order)
    {
      var highest: nat := ROOT_INO;
      for i := 0 to |order|
        invariant Space().(nextIno := highest + 1) == Restore(order[..i])
      {
        assert order[..i + 1][..i] == order[..i];
        var (id, ino) := order[i];
        if ino < ROOT_INO || id == "" {
          continue;
        }
        if id !in idToIno {
          idToIno := idToIno[id := ino];
        }
        if ino !in inoToId {
          inoToId := inoToId[ino := id];
        }
        if ino > highest {
          highest := ino;
        }
      }
      assert order[..|order|] == order;
      nextIno := highest + 1;
    }

    method GetOrAllocIno(id: Id) returns (ino: nat)
      modifies this`nextIno, this`inoToId, this`idToIno
      ensures Space() == Alloc(old(Space()), id)
      ensures id in idToIno && ino == idToIno[id]
      ensures id in old(idToIno) ==> Space() == old(Space())
      ensures id !in old(idToIno) ==> ino == old(nextIno) < nextIno && inoToId == old(inoToId)[ino := id]
    {
      if id !in idToIno {
        inoToId := inoToId[nextIno := id];
        idToIno := idToIno[id := nextIno];
        nextIno := nextIno + 1;
      }
      ino := idToIno[id];
    }

    method StoreMetadata(info: FileInfo)
      modifies this
      ensures Space() == N.StoreMetadata(old(Space()), info)
      ensures metadata == old(metadata)[info.id := info] && info.id in idToIno
      ensures moka == old(moka) && disk == old(disk)
    {
      var _ := GetOrAllocIno(info.id);
      metadata := metadata[info.id := info];
    }

    // ── Directory listings ──

    /** `store_dir_listing`; `order` is the iteration order of
        `pendingParents`. */
    method StoreDirListing(parent: Id, listing: seq<FileInfo>, order: seq<Id>)
      modifies this
      ensures Space() == StoreListing(old(Space()), parent, listing, order)
      ensures L.Arrived(old(Space()), Space(), parent, listing, order)
      ensures L.Registered(old(Space()), Space(), parent, listing)
      ensures moka == old(moka) && disk == old(disk)
    {
      ghost var n := Space();
      RegisterListed(parent, listing);
      RegisterKeeps(n, parent, listing);
      var files := WithPlaceholders(parent, listing, order);
      dirCache := dirCache[parent := files];
      assert Space() == StoreListing(n, parent, listing, order);
      L.ListingArrives(n, parent, listing, order);
      L.ListingRegisters(n, parent, listing, order);
    }

    /** The second and third loop of `store_dir_listing`. */
    method WithPlaceholders(parent: Id, listing: seq<FileInfo>, order: seq<Id>) returns (files: seq<FileInfo>)
      ensures files == InjectKnown(Space(), parent, CarryAll(listing, PendingOnly(Cached(Space(), parent))), order)
    {
      var carried := [];
      if parent in dirCache {
        carried := CarriedOver(dirCache[parent]);
      }
      files := listing;
      for i := 0 to |carried|
        invariant files == CarryAll(listing, carried[..i])
      {
        assert carried[..i + 1][..i] == carried[..i];
        if !HasId(files, carried[i].id) {
          files := files + [carried[i]];
        }
      }
      assert carried[..|carried|] == carried;
      ghost var known := files;
      for i := 0 to |order|
        invariant files == InjectKnown(Space(), parent, known, order[..i])
      {
        assert order[..i + 1][..i] == order[..i];
        var p := order[i];
        if p in pendingParents && pendingParents[p] == parent && !HasId(files, p) && p in metadata {
          files := files + [metadata[p]];
        }
      }
      assert order[..|order|] == order;
    }

    /** The first loop of `store_dir_listing`. */
    method RegisterListed(parent: Id, listing: seq<FileInfo>)
      modifies this
      ensures Space() == RegisterAll(old(Space()), parent, listing)
      ensures moka == old(moka) && disk == old(disk)
    {
      for i := 0 to |listing|
        invariant Space() == RegisterAll(old(Space()), parent, listing[..i])
        invariant moka == old(moka) && disk == old(disk)
      {
        assert listing[..i + 1][..i] == listing[..i];
        var f := listing[i];
        var _ := GetOrAllocIno(f.id);
        metadata := metadata[f.id := f];
        nameIndex := nameIndex[NameKey(parent, f.name, f.mime) := f.id];
      }
      assert listing[..|listing|] == listing;
    }

    /** The placeholders of an outgoing listing. */
    static method CarriedOver(files: seq<FileInfo>) returns (carried: seq<FileInfo>)
      ensures carried == PendingOnly(files)
    {
      carried := [];
      for i := 0 to |files|
        invariant carried == PendingOnly(files[..i])
      {
        assert files[..i + 1][..i] == files[..i];
        if PENDING <= files[i].id {
          carried := carried + [files[i]];
        }
      }
      assert files[..|files|] == files;
    }

    method InvalidateDir(parent: Id)
      modifies this`dirCache, this`nameIndex
      ensures Space() == N.InvalidateDir(old(Space()), parent)
      ensures L.Invalidated(old(Space()), Space(), parent)
    {
      L.InvalidateInvalidates(Space(), parent);
      if parent !in dirCache {
        assert dirCache - {parent} == dirCache && Cached(Space(), parent) == [];
        return;
      }
      var files := dirCache[parent];
      dirCache := dirCache - {parent};
      for i := 0 to |files|
        invariant nameIndex == PruneIndex(old(nameIndex), parent, files[..i])
        invariant dirCache == old(dirCache) - {parent}
      {
        assert files[..i + 1][..i] == files[..i];
        if !IsPending(files[i].id) {
          nameIndex := nameIndex - {NameKey(parent, files[i].name, files[i].mime)};
        }
      }
      assert files[..|files|] == files;
    }

    // ── Placeholders ──

    /** Registering a placeholder. */
    method InjectInSpace(parent: Id, info: FileInfo)
      modifies this`nextIno, this`idToIno, this`inoToId, this`pendingParents, this`nameIndex, this`dirCache
      ensures Space() == Inject(old(Space()), parent, info)
    {
      var _ := GetOrAllocIno(info.id);
      pendingParents := pendingParents[info.id := parent];
      nameIndex := nameIndex[NameKey(parent, info.name, info.mime) := info.id];
      if parent in dirCache && !HasId(dirCache[parent], info.id) {
        dirCache := dirCache[parent := dirCache[parent] + [info]];
      }
    }

    method InjectPendingIntoDir(parent: Id, info: FileInfo)
      modifies this
      ensures Space() == Inject(old(Space()), parent, info)
      ensures L.Injected(old(Space()), Space(), parent, info)
      ensures moka == old(moka) && disk == old(disk)
    {
      L.InjectInjects(Space(), parent, info);
      InjectInSpace(parent, info);
    }

    /** Moving a placeholder between cached listings, or renaming it in one. */
    method MoveListed(from: Id, to: Id, p: Id, name: string)
      modifies this`dirCache
      ensures dirCache ==
              RenameInCache(old(dirCache), from, to, p, name, if p in metadata then Some(metadata[p]) else None)
    {
      if from != to {
        if from in dirCache {
          dirCache := dirCache[from := Without(dirCache[from], p)];
        }
        if p in metadata && to in dirCache {
          dirCache := dirCache[to := dirCache[to] + [metadata[p]]];
        }
      } else if from in dirCache {
        var files := dirCache[from];
        var i := PositionOf(files, p);
        if i < |files| {
          files := files[i := files[i].(name := name)];
        }
        dirCache := dirCache[from := files];
      }
    }

    /** The namespace part of `rename_pending`. */
    method RenameInSpace(from: Id, to: Id, p: Id, name: string)
      modifies this`metadata, this`nameIndex, this`dirCache, this`pendingParents
      ensures Space() == N.RenamePending(old(Space()), from, to, p, name)
    {
      if p in metadata {
        nameIndex := nameIndex - {NameKey(from, metadata[p].name, metadata[p].mime)};
        metadata := metadata[p := metadata[p].(name := name)];
        nameIndex := nameIndex[NameKey(to, name, metadata[p].mime) := p];
      }
      MoveListed(from, to, p, name);
      pendingParents := pendingParents[p := to];
    }

    method RenamePending(from: Id, to: Id, p: Id, name: string)
      modifies this, db`rows
      ensures View() == Rename(old(View()), from, to, p, name)
      ensures L.Renamed(old(Space()), Space(), from, to, p, name)
      ensures db.rows == if p in old(db.rows) then old(db.rows)[p := old(db.rows)[p].(parent := to, name := name)]
                         else old(db.rows)
    {
      L.RenameRenames(Space(), from, to, p, name);
      RenameInSpace(from, to, p, name);
      RenameRow(to, p, name);
    }

    /** The table part of `rename_pending`. */
    method RenameRow(to: Id, p: Id, name: string)
      modifies db`rows
      ensures db.rows == if p in old(db.rows) then old(db.rows)[p := old(db.rows)[p].(parent := to, name := name)]
                         else old(db.rows)
    {
      var row := db.GetMetadata(p);
      if row.Some? {
        db.StoreMetadata(p, row.value.inode, to, name, row.value.md5, row.value.dirty);
      }
    }

    /** Dropping the inode of an id. */
    method ReleaseIno(p: Id)
      modifies this`idToIno, this`inoToId
      ensures Space() == DropIno(old(Space()), p)
    {
      if p in idToIno {
        var ino := idToIno[p];
        idToIno := idToIno - {p};
        inoToId := inoToId - {ino};
      }
    }

    /** Handing the inode of a placeholder to the file it became. */
    method PassOnIno(p: Id, id: Id)
      modifies this`idToIno, this`inoToId
      ensures Space() == SwapIno(old(Space()), p, id)
    {
      if p in idToIno {
        var ino := idToIno[p];
        idToIno := idToIno - {p};
        inoToId := inoToId[ino := id];
        idToIno := idToIno[id := ino];
      }
    }

    /** Dropping a placeholder's metadata and name. */
    method DropDetails(parent: Id, p: Id)
      modifies this`nameIndex, this`metadata
      ensures metadata == old(metadata) - {p}
      ensures nameIndex == WithoutOldName(old(Space()), parent, p)
    {
      if p in metadata {
        nameIndex := nameIndex - {NameKey(parent, metadata[p].name, metadata[p].mime)};
      }
      metadata := metadata - {p};
    }

    /** Dropping a placeholder from a cached listing. */
    method DropListed(parent: Id, p: Id)
      modifies this`dirCache
      ensures dirCache == if parent in old(dirCache)
                          then old(dirCache)[parent := Without(old(dirCache)[parent], p)] else old(dirCache)
    {
      if parent in dirCache {
        dirCache := dirCache[parent := Without(dirCache[parent], p)];
      }
    }

    /** The namespace part of `remove_pending_from_dir`. */
    method RemoveInSpace(parent: Id, p: Id)
      modifies this`pendingParents, this`idToIno, this`inoToId, this`nameIndex, this`metadata, this`dirCache
      ensures Space() == RemovePending(old(Space()), parent, p)
    {
      pendingParents := pendingParents - {p};
      DropDetails(parent, p);
      ReleaseIno(p);
      DropListed(parent, p);
    }

    method RemovePendingFromDir(parent: Id, p: Id)
      modifies this
      ensures Space() == RemovePending(old(Space()), parent, p)
      ensures L.Removed(old(Space()), Space(), parent, p)
      ensures moka == old(moka) - {p} && disk == old(disk)
    {
      L.RemoveRemoves(Space(), parent, p);
      RemoveInSpace(parent, p);
      moka := moka - {p};
    }

    /** Swapping a placeholder's metadata and name for the real file's. */
    method SwapDetails(parent: Id, p: Id, info: FileInfo)
      modifies this`nameIndex, this`metadata
      ensures metadata == (old(metadata) - {p})[info.id := info]
      ensures nameIndex == WithoutOldName(old(Space()), parent, p)[NameKey(parent, info.name, info.mime) := info.id]
    {
      DropDetails(parent, p);
      nameIndex := nameIndex[NameKey(parent, info.name, info.mime) := info.id];
      metadata := metadata[info.id := info];
    }

    /** Swapping a placeholder for the real file in a cached listing. */
    method SwapListed(parent: Id, p: Id, info: FileInfo)
      modifies this`dirCache
      ensures dirCache == if parent in old(dirCache)
                          then old(dirCache)[parent := ReplaceEntry(old(dirCache)[parent], p, info)] else old(dirCache)
    {
      if parent in dirCache {
        var files := dirCache[parent];
        var i := PositionOf(files, p);
        files := if i < |files| then files[i := info] else files + [info];
        dirCache := dirCache[parent := files];
      }
    }

    /** The namespace part of `replace_pending_id`. */
    method ReplaceInSpace(p: Id, parent: Id, info: FileInfo)
      modifies this`pendingParents, this`idToIno, this`inoToId, this`nameIndex, this`metadata, this`dirCache
      ensures Space() == ReplacePending(old(Space()), p, parent, info)
    {
      pendingParents := pendingParents - {p};
      PassOnIno(p, info.id);
      SwapDetails(parent, p, info);
      SwapListed(parent, p, info);
    }

    method ReplacePendingId(p: Id, parent: Id, info: FileInfo)
      modifies this
      ensures Space() == ReplacePending(old(Space()), p, parent, info)
      ensures L.Replaced(old(Space()), Space(), p, parent, info)
      ensures moka == old(moka) && disk == old(disk)
    {
      L.ReplaceReplaces(Space(), p, parent, info);
      ReplaceInSpace(p, parent, info);
    }

    // ── Content ──

    method CacheKeyFor(id: Id) returns (key: Key)
      ensures key == CacheKey(View(), id)
      ensures PENDING <= id || (id in db.rows && db.rows[id].dirty) ==> key == id
      ensures !(PENDING <= id) && !(id in db.rows && db.rows[id].dirty) ==>
                key == if id in metadata && metadata[id].md5.Some? && metadata[id].md5.value != ""
                       then metadata[id].md5.value else id
    {
      if PENDING <= id {
        return id;
      }
      var row := db.GetMetadata(id);
      if row.Some? && row.value.dirty {
        return id;
      }
      if id in metadata && metadata[id].md5.Some? && metadata[id].md5.value != "" {
        return metadata[id].md5.value;
      }
      key := id;
    }

    /** RAM, then BLOB with warming; larger content is not looked for. */
    method GetContent(id: Id) returns (found: Option<Bytes>)
      modifies this`moka
      ensures View() == C.GetContent(old(View()), id)
      ensures found == Small(old(Content()), CacheKey(old(View()), id))
      ensures var key := CacheKey(old(View()), id);
              && found == (if key in old(moka) then Some(old(moka)[key]) else Find(db.blobs, key))
              && moka == if found.Some? then old(moka)[key := found.value] else old(moka)
    {
      var key := CacheKeyFor(id);
      if key in moka {
        return Some(moka[key]);
      }
      if key in db.blobs {
        moka := moka[key := db.blobs[key]];
        return Some(db.blobs[key]);
      }
      found := None;
    }

    method ReadFullDiskContent(id: Id) returns (found: Option<Bytes>)
      ensures found == Find(disk, CacheKey(View(), id))
    {
      var key := CacheKeyFor(id);
      found := if key in disk then Some(disk[key]) else None;
    }

    method StoreContentAtKey(key: Key, content: Bytes)
      modifies this`moka, this`disk, db`blobs
      ensures Content() == Store(old(Content()), key, content)
      ensures |content| <= ramMax ==>
                && moka == old(moka)[key := content] && db.blobs == old(db.blobs)[key := content] && disk == old(disk)
      ensures |content| > ramMax ==>
                moka == old(moka) - {key} && db.blobs == old(db.blobs) - {key} && disk == old(disk)[key := content]
    {
      if |content| <= ramMax {
        db.StoreSmallFile(key, content);
        moka := moka[key := content];
      } else {
        db.DeleteSmallFile(key);
        moka := moka - {key};
        disk := disk[key := content];
      }
    }

    method StoreContentBytes(id: Id, content: Bytes)
      modifies this`moka, this`disk, db`blobs
      ensures View() == Download(old(View()), id, content)
      ensures CacheKey(View(), id) == CacheKey(old(View()), id) && Read(View(), id) == Some(content)
    {
      var key := CacheKeyFor(id);
      StoreContentAtKey(key, content);
    }

    method WriteLocalDirty(id: Id, content: Bytes, parent: Id, name: string)
      modifies this, db`rows, db`blobs
      ensures View() == C.WriteLocalDirty(old(View()), id, content, parent, name)
      ensures && id in db.rows && id in idToIno && Read(View(), id) == Some(content)
              && var kept := if id in old(db.rows) then old(db.rows)[id].inode else idToIno[id];
                 db.rows == old(db.rows)[id := Row(kept, parent, name, None, true)]
      ensures metadata == if id in old(metadata) then old(metadata)[id := old(metadata)[id].(size := |content|)]
                          else old(metadata)
    {
      if id in metadata {
        metadata := metadata[id := metadata[id].(size := |content|)];
      }
      StoreContentAtKey(id, content);
      var ino := GetOrAllocIno(id);
      db.StoreMetadata(id, ino, parent, name, None, true);
    }

    method MigrateCacheKey(from: Key, to: Key)
      modifies this`moka, this`disk, db`blobs
      ensures Content() == Migrate(old(Content()), from, to)
    {
      if from == to {
        return;
      }
      if from in moka {
        moka := moka[to := moka[from]];
        moka := moka - {from};
      }
      db.MigrateSmallFileKey(from, to);
      if from in disk {
        disk := disk[to := disk[from]] - {from};
      }
    }

    /** `remove_metadata`. */
    method RemoveMetadata(id: Id)
      modifies this`metadata, this`moka, this`disk
      ensures View() == Forget(old(View()), id)
      ensures metadata == old(metadata) - {id} && moka == old(moka) - {id} && disk == old(disk) - {id}
    {
      metadata := metadata - {id};
      moka := moka - {id};
      disk := disk - {id};
    }

    method EvictMetadata(id: Id)
      modifies this`metadata
      ensures Space() == C.EvictMetadata(old(Space()), id) && metadata == old(metadata) - {id}
    {
      metadata := metadata - {id};
    }

    method EvictDiskContent(id: Id)
      modifies this`disk
      ensures disk == old(disk) - {CacheKey(old(View()), id), id}
    {
      var key := CacheKeyFor(id);
      disk := disk - {key};
      if key != id {
        disk := disk - {id};
      }
    }
  }
}
