/** What the operations on the namespace mean for those who list a directory or
    look up a name in it: said entry by entry and key by key, apart from how
    `Names` computes the new maps. */
module Listings {
  import opened Basics
  import opened Names

  // ── Entries of a listing ──

  /** The first entry with an id. */
  predicate FirstOf(files: seq<FileInfo>, i: nat, id: Id) {
    i < |files| && files[i].id == id && forall j :: 0 <= j < i ==> files[j].id != id
  }

  /** The only entry with its id, and the last one. */
  predicate OnlyOne(files: seq<FileInfo>, i: nat) {
    i < |files| && forall j :: 0 <= j < |files| && j != i ==> files[j].id != files[i].id
  }

  predicate LastOf(files: seq<FileInfo>, i: nat) {
    i < |files| && forall j :: i < j < |files| ==> files[j].id != files[i].id
  }

  function KeyOf(parent: Id, f: FileInfo): string { NameKey(parent, f.name, f.mime) }

  predicate LastNamed(parent: Id, files: seq<FileInfo>, i: nat) {
    i < |files| && forall j :: i < j < |files| ==> KeyOf(parent, files[j]) != KeyOf(parent, files[i])
  }

  /** Entries with one id are gone, and the others are as they were. */
  ghost predicate TakenOut(before: seq<FileInfo>, after: seq<FileInfo>, id: Id) {
    && (forall f :: f in after <==> f in before && f.id != id)
    && (!HasId(before, id) ==> after == before)
    && (forall i: nat :: i < |before| && before[i].id == id && OnlyOne(before, i) ==>
          after == before[..i] + before[i + 1..])
  }

  /** The first entry with one id has been exchanged where it stood. */
  ghost predicate Exchanged(before: seq<FileInfo>, after: seq<FileInfo>, id: Id, info: FileInfo) {
    && |after| == |before|
    && forall i: nat :: i < |before| ==> after[i] == if FirstOf(before, i, id) then info else before[i]
  }

  lemma {:induction false} WithoutHas(files: seq<FileInfo>, id: Id)
    ensures forall f :: f in Without(files, id) <==> f in files && f.id != id
    decreases |files|
  {
    if files != [] {
      WithoutHas(files[..|files| - 1], id);
      assert files == files[..|files| - 1] + [files[|files| - 1]];
    }
  }

  lemma {:induction false} WithoutNone(files: seq<FileInfo>, id: Id)
    requires forall i :: 0 <= i < |files| ==> files[i].id != id
    ensures Without(files, id) == files
    decreases |files|
  {
    if files != [] {
      WithoutNone(files[..|files| - 1], id);
    }
  }

  lemma {:induction false} WithoutOne(files: seq<FileInfo>, id: Id, i: nat)
    requires i < |files| && files[i].id == id && OnlyOne(files, i)
    ensures Without(files, id) == files[..i] + files[i + 1..]
    decreases |files|
  {
    var init, last := files[..|files| - 1], files[|files| - 1];
    if i < |init| {
      WithoutOne(init, id, i);
      assert files[i + 1..] == init[i + 1..] + [last];
    } else {
      WithoutNone(init, id);
    }
  }

  lemma WithoutTakesOut(files: seq<FileInfo>, id: Id)
    ensures TakenOut(files, Without(files, id), id)
  {
    WithoutHas(files, id);
    if !HasId(files, id) {
      WithoutNone(files, id);
    }
    forall i: nat | i < |files| && files[i].id == id && OnlyOne(files, i)
      ensures Without(files, id) == files[..i] + files[i + 1..]
    {
      WithoutOne(files, id, i);
    }
  }

  lemma ReplaceExchanges(files: seq<FileInfo>, id: Id, info: FileInfo)
    ensures HasId(files, id) ==> Exchanged(files, ReplaceEntry(files, id, info), id, info)
    ensures !HasId(files, id) ==> ReplaceEntry(files, id, info) == files + [info]
  {
    assert PositionOf(files, id) < |files| ==> FirstOf(files, PositionOf(files, id), id);
  }

  lemma RenameExchanges(files: seq<FileInfo>, id: Id, name: string)
    ensures forall i: nat :: FirstOf(files, i, id) ==>
              Exchanged(files, RenameEntry(files, id, name), id, files[i].(name := name))
    ensures !HasId(files, id) ==> RenameEntry(files, id, name) == files
  {
    assert PositionOf(files, id) < |files| ==> FirstOf(files, PositionOf(files, id), id);
  }

  // ── Storing a listing ──

  predicate Named(parent: Id, files: seq<FileInfo>, k: string) {
    exists i :: 0 <= i < |files| && KeyOf(parent, files[i]) == k
  }

  /** Every listed file has its metadata; of several with one id the last one
      counts. */
  ghost predicate MetadataListed(n: Names, m: Names, files: seq<FileInfo>) {
    && (forall i: nat :: LastOf(files, i) ==> files[i].id in m.metadata && m.metadata[files[i].id] == files[i])
    && forall id :: !HasId(files, id) ==>
         (id in m.metadata <==> id in n.metadata) && (id in n.metadata ==> m.metadata[id] == n.metadata[id])
  }

  /** A name leads to every listed file; of several with one name to the last
      one. */
  ghost predicate NamesListed(n: Names, m: Names, parent: Id, files: seq<FileInfo>) {
    && (forall i: nat :: LastNamed(parent, files, i) ==>
          KeyOf(parent, files[i]) in m.nameIndex && m.nameIndex[KeyOf(parent, files[i])] == files[i].id)
    && forall k :: !Named(parent, files, k) ==>
         (k in m.nameIndex <==> k in n.nameIndex) && (k in n.nameIndex ==> m.nameIndex[k] == n.nameIndex[k])
  }

  /** Every listed file has an inode, a new one leads back to its file, and none
      changes. */
  ghost predicate InodesListed(n: Names, m: Names, files: seq<FileInfo>) {
    && n.nextIno <= m.nextIno
    && (forall i: nat :: i < |files| ==> files[i].id in m.idToIno)
    && (forall id :: id !in n.idToIno && id in m.idToIno ==>
          var ino := m.idToIno[id]; n.nextIno <= ino < m.nextIno && ino in m.inoToId && m.inoToId[ino] == id)
    && (forall id :: id in n.idToIno ==> id in m.idToIno && m.idToIno[id] == n.idToIno[id])
  }

  ghost predicate Registered(n: Names, m: Names, parent: Id, files: seq<FileInfo>) {
    && MetadataListed(n, m, files) && NamesListed(n, m, parent, files) && InodesListed(n, m, files)
    && m.pendingParents == n.pendingParents
  }

  lemma MetadataOne(n: Names, m: Names, init: seq<FileInfo>, last: FileInfo, r: Names)
    requires MetadataListed(n, m, init) && r.metadata == m.metadata[last.id := last]
    ensures MetadataListed(n, r, init + [last])
  {
    var files := init + [last];
    forall i: nat | LastOf(files, i) ensures files[i].id in r.metadata && r.metadata[files[i].id] == files[i] {
      assert files[|init|] == last && forall j :: 0 <= j < |init| ==> files[j] == init[j];
      assert i < |init| ==> LastOf(init, i) && last.id != files[i].id;
    }
    forall id | !HasId(files, id) ensures !HasId(init, id) && id != last.id {
      assert files[|init|] == last && forall i :: 0 <= i < |init| ==> files[i] == init[i];
    }
  }

  lemma NamesOne(n: Names, m: Names, parent: Id, init: seq<FileInfo>, last: FileInfo, r: Names)
    requires NamesListed(n, m, parent, init) && r.nameIndex == m.nameIndex[KeyOf(parent, last) := last.id]
    ensures NamesListed(n, r, parent, init + [last])
  {
    var files := init + [last];
    forall i: nat | LastNamed(parent, files, i)
      ensures KeyOf(parent, files[i]) in r.nameIndex && r.nameIndex[KeyOf(parent, files[i])] == files[i].id
    {
      assert files[|init|] == last && forall j :: 0 <= j < |init| ==> files[j] == init[j];
      assert i < |init| ==> LastNamed(parent, init, i) && KeyOf(parent, last) != KeyOf(parent, files[i]);
    }
    forall k | !Named(parent, files, k) ensures !Named(parent, init, k) && k != KeyOf(parent, last) {
      assert files[|init|] == last && forall i :: 0 <= i < |init| ==> files[i] == init[i];
    }
  }

  lemma InodesOne(n: Names, m: Names, init: seq<FileInfo>, last: FileInfo)
    requires InodesListed(n, m, init)
    ensures InodesListed(n, Alloc(m, last.id), init + [last])
  {
  }

  lemma {:induction false} RegisterAllRegisters(n: Names, parent: Id, files: seq<FileInfo>)
    ensures Registered(n, RegisterAll(n, parent, files), parent, files)
    ensures RegisterAll(n, parent, files).dirCache == n.dirCache
    decreases |files|
  {
    if files != [] {
      var init, last := files[..|files| - 1], files[|files| - 1];
      var m, r := RegisterAll(n, parent, init), RegisterAll(n, parent, files);
      assert files == init + [last];
      RegisterAllRegisters(n, parent, init);
      MetadataOne(n, m, init, last, r);
      NamesOne(n, m, parent, init, last, r);
      InodesOne(n, m, init, last);
      var a := Alloc(m, last.id);
      assert r.nextIno == a.nextIno && r.inoToId == a.inoToId && r.idToIno == a.idToIno;
    }
  }

  // ── The cached listing ──

  /** The metadata of a placeholder known for the directory. */
  ghost predicate KnownHere(n: Names, parent: Id, f: FileInfo) {
    exists p :: p in n.pendingParents && n.pendingParents[p] == parent && p in n.metadata && f == n.metadata[p]
  }

  predicate BelongsHere(n: Names, parent: Id, p: Id) {
    p in n.pendingParents && n.pendingParents[p] == parent && p in n.metadata && n.metadata[p].id == p
  }

  /** A placeholder carried over from the listing before, or known for the
      directory. */
  ghost predicate Carried(n: Names, m: Names, parent: Id, f: FileInfo) {
    (IsPending(f.id) && f in Cached(n, parent)) || KnownHere(m, parent, f)
  }

  /** The cached listing begins with exactly the files that arrived, in order;
      what comes after them are placeholders, and all that were listed before
      or are known for this directory are there. */
  ghost predicate Arrived(n: Names, m: Names, parent: Id, files: seq<FileInfo>, order: seq<Id>) {
    && parent in m.dirCache && m.dirCache == n.dirCache[parent := m.dirCache[parent]]
    && files <= m.dirCache[parent]
    && (forall f :: f in m.dirCache[parent][|files|..] ==> Carried(n, m, parent, f))
    && (forall f :: f in Cached(n, parent) && IsPending(f.id) ==> HasId(m.dirCache[parent], f.id))
    && (forall p :: p in order && BelongsHere(m, parent, p) ==> HasId(m.dirCache[parent], p))
  }

  lemma {:induction false} PendingOnlyHas(files: seq<FileInfo>)
    ensures forall f :: f in PendingOnly(files) <==> f in files && IsPending(f.id)
    decreases |files|
  {
    if files != [] {
      PendingOnlyHas(files[..|files| - 1]);
      assert files == files[..|files| - 1] + [files[|files| - 1]];
    }
  }

  lemma HasIdGrows(files: seq<FileInfo>, more: seq<FileInfo>, id: Id)
    requires files <= more && HasId(files, id)
    ensures HasId(more, id)
  {
    var i :| 0 <= i < |files| && files[i].id == id;
    assert more[i] == files[i];
  }

  lemma {:induction false} CarryAllAdds(files: seq<FileInfo>, carried: seq<FileInfo>)
    ensures files <= CarryAll(files, carried)
    ensures forall f :: f in CarryAll(files, carried)[|files|..] ==> f in carried
    ensures forall f :: f in carried ==> HasId(CarryAll(files, carried), f.id)
    decreases |carried|
  {
    if carried != [] {
      var init, last := carried[..|carried| - 1], carried[|carried| - 1];
      var acc, all := CarryAll(files, init), CarryAll(files, carried);
      assert carried == init + [last];
      CarryAllAdds(files, init);
      assert all[|files|..] == acc[|files|..] + all[|acc|..];
      forall f | f in carried ensures HasId(all, f.id) {
        if f == last {
          assert all != acc ==> all[|acc|] == last;
        } else {
          HasIdGrows(acc, all, f.id);
        }
      }
    }
  }

  lemma {:induction false} InjectKnownAdds(n: Names, parent: Id, files: seq<FileInfo>, order: seq<Id>)
    ensures files <= InjectKnown(n, parent, files, order)
    ensures forall f :: f in InjectKnown(n, parent, files, order)[|files|..] ==> KnownHere(n, parent, f)
    ensures forall p :: p in order && BelongsHere(n, parent, p) ==> HasId(InjectKnown(n, parent, files, order), p)
    decreases |order|
  {
    if order != [] {
      var init, last := order[..|order| - 1], order[|order| - 1];
      var acc, all := InjectKnown(n, parent, files, init), InjectKnown(n, parent, files, order);
      assert order == init + [last];
      InjectKnownAdds(n, parent, files, init);
      assert all[|files|..] == acc[|files|..] + all[|acc|..];
      forall p | p in order && BelongsHere(n, parent, p) ensures HasId(all, p) {
        if p == last {
          assert all != acc ==> all[|acc|].id == p;
        } else {
          HasIdGrows(acc, all, p);
        }
      }
    }
  }

  /** The second and third loop together. */
  lemma PlaceholdersAdded(n: Names, m: Names, parent: Id, files: seq<FileInfo>, order: seq<Id>)
    ensures var carried := CarryAll(files, PendingOnly(Cached(n, parent)));
            var all := InjectKnown(m, parent, carried, order);
            && files <= all
            && (forall f :: f in all[|files|..] ==> Carried(n, m, parent, f))
            && (forall f :: f in Cached(n, parent) && IsPending(f.id) ==> HasId(all, f.id))
            && (forall p :: p in order && BelongsHere(m, parent, p) ==> HasId(all, p))
  {
    var carried := CarryAll(files, PendingOnly(Cached(n, parent)));
    var all := InjectKnown(m, parent, carried, order);
    PendingOnlyHas(Cached(n, parent));
    CarryAllAdds(files, PendingOnly(Cached(n, parent)));
    InjectKnownAdds(m, parent, carried, order);
    assert all[|files|..] == carried[|files|..] + all[|carried|..];
    forall f | f in Cached(n, parent) && IsPending(f.id) ensures HasId(all, f.id) {
      HasIdGrows(carried, all, f.id);
    }
  }

  lemma ListingRegisters(n: Names, parent: Id, files: seq<FileInfo>, order: seq<Id>)
    ensures Registered(n, StoreListing(n, parent, files, order), parent, files)
  {
    RegisterAllRegisters(n, parent, files);
    var m, r := RegisterAll(n, parent, files), StoreListing(n, parent, files, order);
    assert r == m.(dirCache := r.dirCache);
  }

  lemma ListingArrives(n: Names, parent: Id, files: seq<FileInfo>, order: seq<Id>)
    ensures Arrived(n, StoreListing(n, parent, files, order), parent, files, order)
  {
    var m, r := RegisterAll(n, parent, files), StoreListing(n, parent, files, order);
    RegisterAllRegisters(n, parent, files);
    PlaceholdersAdded(n, m, parent, files, order);
    assert r == m.(dirCache := r.dirCache);
    assert forall f :: Carried(n, m, parent, f) ==> Carried(n, r, parent, f);
    assert forall p :: BelongsHere(r, parent, p) == BelongsHere(m, parent, p);
  }

  // ── Dropping a listing ──

  /** The listing is gone, and so are the names of its files, but not those of
      its placeholders. */
  ghost predicate Invalidated(n: Names, m: Names, parent: Id) {
    && parent !in m.dirCache
    && (forall d :: d != parent ==>
          (d in m.dirCache <==> d in n.dirCache) && (d in n.dirCache ==> m.dirCache[d] == n.dirCache[d]))
    && (forall k :: k in m.nameIndex <==>
          k in n.nameIndex && forall f :: f in Cached(n, parent) && !IsPending(f.id) ==> KeyOf(parent, f) != k)
    && (forall k :: k in m.nameIndex ==> m.nameIndex[k] == n.nameIndex[k])
    && m.metadata == n.metadata && m.pendingParents == n.pendingParents
    && m.idToIno == n.idToIno && m.inoToId == n.inoToId
  }

  lemma {:induction false} PruneIndexPrunes(index: map<string, Id>, parent: Id, files: seq<FileInfo>)
    ensures var r := PruneIndex(index, parent, files);
            && (forall k :: k in r <==>
                  k in index && forall f :: f in files && !IsPending(f.id) ==> KeyOf(parent, f) != k)
            && (forall k :: k in r ==> r[k] == index[k])
    decreases |files|
  {
    if files != [] {
      PruneIndexPrunes(index, parent, files[..|files| - 1]);
      assert files == files[..|files| - 1] + [files[|files| - 1]];
    }
  }

  lemma InvalidateInvalidates(n: Names, parent: Id)
    ensures Invalidated(n, InvalidateDir(n, parent), parent)
  {
    PruneIndexPrunes(n.nameIndex, parent, Cached(n, parent));
  }

  // ── Placeholders ──

  ghost predicate OtherListings(n: Names, m: Names, here: set<Id>) {
    && m.dirCache.Keys == n.dirCache.Keys
    && forall d :: d in n.dirCache && d !in here ==> m.dirCache[d] == n.dirCache[d]
  }

  ghost predicate OtherMetadata(n: Names, m: Names, here: set<Id>) {
    forall id :: id !in here ==>
      (id in m.metadata <==> id in n.metadata) && (id in n.metadata ==> m.metadata[id] == n.metadata[id])
  }

  ghost predicate OtherNames(n: Names, m: Names, here: set<string>) {
    forall k :: k !in here ==>
      (k in m.nameIndex <==> k in n.nameIndex) && (k in n.nameIndex ==> m.nameIndex[k] == n.nameIndex[k])
  }

  /** A placeholder is known under its parent and name, has an inode, and is in
      the parent's listing if that is cached. */
  ghost predicate Injected(n: Names, m: Names, parent: Id, info: FileInfo) {
    && m.pendingParents == n.pendingParents[info.id := parent] && info.id in m.idToIno
    && KeyOf(parent, info) in m.nameIndex && m.nameIndex[KeyOf(parent, info)] == info.id
    && OtherNames(n, m, {KeyOf(parent, info)}) && OtherListings(n, m, {parent})
    && (parent in n.dirCache ==>
          m.dirCache[parent] == n.dirCache[parent] + if HasId(n.dirCache[parent], info.id) then [] else [info])
  }

  lemma InjectInjects(n: Names, parent: Id, info: FileInfo)
    ensures Injected(n, Inject(n, parent, info), parent, info)
    ensures Inject(n, parent, info).metadata == n.metadata
  {
    assert parent in n.dirCache ==> n.dirCache[parent] + [] == n.dirCache[parent];
  }

  ghost predicate EntryRenamed(before: seq<FileInfo>, after: seq<FileInfo>, p: Id, name: string) {
    && |after| == |before|
    && forall i: nat :: i < |before| ==>
         after[i] == if FirstOf(before, i, p) then before[i].(name := name) else before[i]
  }

  /** Renamed in place, or moved from one cached listing to the end of another. */
  ghost predicate ListingsRenamed(n: Names, m: Names, from: Id, to: Id, p: Id, name: string) {
    && OtherListings(n, m, {from, to})
    && (from == to && from in n.dirCache ==> EntryRenamed(n.dirCache[from], m.dirCache[from], p, name))
    && (from != to && from in n.dirCache ==> TakenOut(n.dirCache[from], m.dirCache[from], p))
    && (from != to && to in n.dirCache ==>
          m.dirCache[to] == n.dirCache[to] + if p in m.metadata then [m.metadata[p]] else [])
  }

  /** The placeholder has the new name and parent wherever it is known. */
  ghost predicate Renamed(n: Names, m: Names, from: Id, to: Id, p: Id, name: string) {
    && m.pendingParents == n.pendingParents[p := to] && OtherMetadata(n, m, {p})
    && m.idToIno == n.idToIno && m.inoToId == n.inoToId
    && (p !in n.metadata ==> p !in m.metadata && m.nameIndex == n.nameIndex)
    && (p in n.metadata ==>
          var was, now := KeyOf(from, n.metadata[p]), KeyOf(to, n.metadata[p].(name := name));
          && p in m.metadata && m.metadata[p] == n.metadata[p].(name := name)
          && now in m.nameIndex && m.nameIndex[now] == p && (was != now ==> was !in m.nameIndex)
          && OtherNames(n, m, {was, now}))
    && ListingsRenamed(n, m, from, to, p, name)
  }

  lemma EntryIsRenamed(files: seq<FileInfo>, p: Id, name: string)
    ensures EntryRenamed(files, RenameEntry(files, p, name), p, name)
  {
    RenameExchanges(files, p, name);
  }

  lemma ListingsMove(n: Names, from: Id, to: Id, p: Id, name: string)
    requires from != to
    ensures ListingsRenamed(n, RenamePending(n, from, to, p, name), from, to, p, name)
  {
    var cache := RenamePending(n, from, to, p, name).dirCache;
    if from in n.dirCache {
      WithoutTakesOut(n.dirCache[from], p);
      assert cache[from] == Without(n.dirCache[from], p);
    }
    if to in n.dirCache {
      assert n.dirCache[to] + [] == n.dirCache[to];
      assert cache[to] == n.dirCache[to] + if p in n.metadata then [n.metadata[p].(name := name)] else [];
    }
  }

  lemma ListingsRename(n: Names, from: Id, to: Id, p: Id, name: string)
    ensures ListingsRenamed(n, RenamePending(n, from, to, p, name), from, to, p, name)
  {
    if from == to {
      if from in n.dirCache {
        EntryIsRenamed(n.dirCache[from], p, name);
      }
    } else {
      ListingsMove(n, from, to, p, name);
    }
  }

  lemma RenameRenames(n: Names, from: Id, to: Id, p: Id, name: string)
    ensures Renamed(n, RenamePending(n, from, to, p, name), from, to, p, name)
  {
    ListingsRename(n, from, to, p, name);
  }

  /** Nothing leads to the placeholder from its parent any more. */
  ghost predicate Removed(n: Names, m: Names, parent: Id, p: Id) {
    && m.pendingParents == n.pendingParents - {p} && m.metadata == n.metadata - {p} && m.idToIno == n.idToIno - {p}
    && (p in n.idToIno ==> n.idToIno[p] !in m.inoToId)
    && (p in n.metadata ==> KeyOf(parent, n.metadata[p]) !in m.nameIndex)
    && OtherNames(n, m, if p in n.metadata then {KeyOf(parent, n.metadata[p])} else {})
    && OtherListings(n, m, {parent})
    && (parent in n.dirCache ==> TakenOut(n.dirCache[parent], m.dirCache[parent], p))
  }

  lemma RemoveRemoves(n: Names, parent: Id, p: Id)
    ensures Removed(n, RemovePending(n, parent, p), parent, p)
  {
    if parent in n.dirCache {
      WithoutTakesOut(n.dirCache[parent], p);
    }
  }

  /** The real file stands where the placeholder stood, or at the end if it was
      not listed. */
  ghost predicate ListingReplaced(n: Names, m: Names, p: Id, parent: Id, info: FileInfo) {
    && OtherListings(n, m, {parent})
    && (parent in n.dirCache && HasId(n.dirCache[parent], p) ==>
          Exchanged(n.dirCache[parent], m.dirCache[parent], p, info))
    && (parent in n.dirCache && !HasId(n.dirCache[parent], p) ==>
          m.dirCache[parent] == n.dirCache[parent] + [info])
  }

  /** It is listed, has the placeholder's inode and its own metadata, and a name
      leads to it. */
  ghost predicate Replaced(n: Names, m: Names, p: Id, parent: Id, info: FileInfo) {
    var now := KeyOf(parent, info);
    && m.pendingParents == n.pendingParents - {p}
    && info.id in m.metadata && m.metadata[info.id] == info && OtherMetadata(n, m, {p, info.id})
    && (p != info.id ==> p !in m.metadata)
    && now in m.nameIndex && m.nameIndex[now] == info.id
    && OtherNames(n, m, {now} + if p in n.metadata then {KeyOf(parent, n.metadata[p])} else {})
    && (p in n.metadata && KeyOf(parent, n.metadata[p]) != now ==> KeyOf(parent, n.metadata[p]) !in m.nameIndex)
    && (p in n.idToIno ==> info.id in m.idToIno && m.idToIno[info.id] == n.idToIno[p]
                           && n.idToIno[p] in m.inoToId && m.inoToId[n.idToIno[p]] == info.id)
    && ListingReplaced(n, m, p, parent, info)
  }

  lemma ListingReplaces(n: Names, p: Id, parent: Id, info: FileInfo)
    ensures ListingReplaced(n, ReplacePending(n, p, parent, info), p, parent, info)
  {
    if parent in n.dirCache {
      ReplaceExchanges(n.dirCache[parent], p, info);
    }
  }

  lemma ReplaceReplaces(n: Names, p: Id, parent: Id, info: FileInfo)
    ensures Replaced(n, ReplacePending(n, p, parent, info), p, parent, info)
  {
    ListingReplaces(n, p, parent, info);
  }
}
