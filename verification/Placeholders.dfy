/** Pending placeholders stay visible under their current name and parent, and
    the rows the uploader reads agree with them. */
module Placeholders {
  import opened Basics
  import opened ContentTiers
  import opened Names
  import opened Client
  import opened ClientRun
  import L = Listings

  predicate PendingBelow(p: Id, fh: nat) { exists k: nat :: k < fh && p == PendingId(k) }

  /** A pending entry of a listing shows the recorded parent and live name. */
  predicate GoodEntry(n: Names, parent: Id, f: FileInfo) {
    IsPending(f.id) ==>
      && f.id in n.pendingParents && n.pendingParents[f.id] == parent
      && f.id in n.metadata && f.name == n.metadata[f.id].name
  }

  ghost predicate NoRepeat(files: seq<FileInfo>) {
    forall i, j :: 0 <= i < j < |files| && IsPending(files[i].id) ==> files[i].id != files[j].id
  }

  ghost predicate GoodList(n: Names, parent: Id, files: seq<FileInfo>) {
    (forall i :: 0 <= i < |files| ==> GoodEntry(n, parent, files[i])) && NoRepeat(files)
  }

  /** Every live placeholder is recorded under one parent, occurs exactly once
      in that parent's cached listing, if cached, and in no other listing. */
  ghost predicate Visible(n: Names, fh: nat) {
    && (forall p :: p in n.pendingParents ==>
          IsPending(p) && PendingBelow(p, fh) && p in n.metadata && n.metadata[p].id == p)
    && (forall d :: d in n.dirCache ==> GoodList(n, d, n.dirCache[d]))
    && (forall p :: p in n.pendingParents && n.pendingParents[p] in n.dirCache ==>
          HasId(n.dirCache[n.pendingParents[p]], p))
  }

  /** A name that leads to a placeholder is its live name under its recorded
      parent. */
  ghost predicate Indexed(n: Names) {
    forall k :: k in n.nameIndex && IsPending(n.nameIndex[k]) ==>
      var p := n.nameIndex[k];
      && p in n.pendingParents && p in n.metadata
      && k == NameKey(n.pendingParents[p], n.metadata[p].name, n.metadata[p].mime)
  }

  ghost predicate Unlisted(n: Names, p: Id) {
    p !in n.pendingParents && forall d :: d in n.dirCache ==> !HasId(n.dirCache[d], p)
  }

  ghost predicate Unindexed(n: Names, p: Id) { forall k :: k in n.nameIndex ==> n.nameIndex[k] != p }

  /** No part of the namespace knows the id. */
  ghost predicate Nowhere(n: Names, p: Id) {
    Unlisted(n, p) && Unindexed(n, p) && p !in n.metadata && p !in n.idToIno
  }

  // ── Namespace operations keep visibility ──

  /** Operations that touch neither placeholders nor listings. */
  lemma VisibleFrame(n: Names, m: Names, fh: nat)
    requires Visible(n, fh)
    requires m.pendingParents == n.pendingParents && m.dirCache == n.dirCache
    requires forall p :: p in n.metadata && IsPending(p) ==>
               p in m.metadata && m.metadata[p].name == n.metadata[p].name && m.metadata[p].id == n.metadata[p].id
    ensures Visible(m, fh)
  {
    forall d | d in m.dirCache
      ensures GoodList(m, d, m.dirCache[d])
    {
      assert forall i :: 0 <= i < |n.dirCache[d]| && GoodEntry(n, d, n.dirCache[d][i]) ==>
                           GoodEntry(m, d, n.dirCache[d][i]);
    }
  }

  /** Operations that add no placeholder to the name index. */
  lemma IndexedFrame(n: Names, m: Names)
    requires Indexed(n) && m.pendingParents == n.pendingParents
    requires forall k :: k in m.nameIndex && IsPending(m.nameIndex[k]) ==>
               k in n.nameIndex && n.nameIndex[k] == m.nameIndex[k]
    requires forall p :: p in n.metadata && IsPending(p) ==>
               p in m.metadata && m.metadata[p].name == n.metadata[p].name && m.metadata[p].mime == n.metadata[p].mime
    ensures Indexed(m)
  {
  }

  lemma {:induction false} PruneFrame(index: map<string, Id>, parent: Id, files: seq<FileInfo>)
    ensures var r := PruneIndex(index, parent, files); forall k :: k in r ==> k in index && index[k] == r[k]
    decreases |files|
  {
    if files != [] {
      PruneFrame(index, parent, files[..|files| - 1]);
    }
  }

  lemma {:induction false} RegisterFrame(n: Names, parent: Id, files: seq<FileInfo>)
    requires forall f :: f in files ==> !IsPending(f.id)
    ensures var m := RegisterAll(n, parent, files);
            && m.pendingParents == n.pendingParents && m.dirCache == n.dirCache
            && forall p :: IsPending(p) ==> (p in m.metadata <==> p in n.metadata)
                                            && (p in n.metadata ==> m.metadata[p] == n.metadata[p])
    ensures var m := RegisterAll(n, parent, files);
            forall k :: k in m.nameIndex && IsPending(m.nameIndex[k]) ==>
              k in n.nameIndex && n.nameIndex[k] == m.nameIndex[k]
    decreases |files|
  {
    if files != [] {
      assert files[|files| - 1] in files;
      RegisterFrame(n, parent, files[..|files| - 1]);
    }
  }

  lemma AppendGood(n: Names, parent: Id, files: seq<FileInfo>, f: FileInfo)
    requires GoodList(n, parent, files) && GoodEntry(n, parent, f) && (IsPending(f.id) ==> !HasId(files, f.id))
    ensures GoodList(n, parent, files + [f])
    ensures forall p :: HasId(files + [f], p) <==> HasId(files, p) || p == f.id
  {
    forall p ensures HasId(files + [f], p) <==> HasId(files, p) || p == f.id {
      if HasId(files, p) {
        var i :| 0 <= i < |files| && files[i].id == p;
        assert (files + [f])[i].id == p;
      }
      assert (files + [f])[|files|] == f;
    }
  }

  lemma {:induction false} PendingOnlyGood(n: Names, parent: Id, files: seq<FileInfo>)
    requires forall i :: 0 <= i < |files| ==> GoodEntry(n, parent, files[i])
    ensures forall f :: f in PendingOnly(files) ==> GoodEntry(n, parent, f) && IsPending(f.id)
    decreases |files|
  {
    if files != [] {
      PendingOnlyGood(n, parent, files[..|files| - 1]);
    }
  }

  lemma {:induction false} CarryGood(n: Names, parent: Id, files: seq<FileInfo>, carried: seq<FileInfo>)
    requires GoodList(n, parent, files)
    requires forall f :: f in carried ==> GoodEntry(n, parent, f)
    ensures GoodList(n, parent, CarryAll(files, carried))
    decreases |carried|
  {
    if carried != [] {
      var last := carried[|carried| - 1];
      assert last in carried;
      CarryGood(n, parent, files, carried[..|carried| - 1]);
      if !HasId(CarryAll(files, carried[..|carried| - 1]), last.id) {
        AppendGood(n, parent, CarryAll(files, carried[..|carried| - 1]), last);
      }
    }
  }

  lemma {:induction false} InjectGood(n: Names, parent: Id, files: seq<FileInfo>, order: seq<Id>)
    requires GoodList(n, parent, files)
    requires forall p :: p in n.pendingParents ==> p in n.metadata && n.metadata[p].id == p
    ensures var r := InjectKnown(n, parent, files, order);
            && GoodList(n, parent, r)
            && (forall p :: HasId(files, p) ==> HasId(r, p))
            && forall p :: p in order && p in n.pendingParents && n.pendingParents[p] == parent ==> HasId(r, p)
    decreases |order|
  {
    if order != [] {
      var last := order[|order| - 1];
      var acc := InjectKnown(n, parent, files, order[..|order| - 1]);
      InjectGood(n, parent, files, order[..|order| - 1]);
      assert forall p :: p in order ==> p == last || p in order[..|order| - 1];
      if last in n.pendingParents && n.pendingParents[last] == parent && !HasId(acc, last) {
        AppendGood(n, parent, acc, n.metadata[last]);
      }
    }
  }

  lemma ListingIndexed(n: Names, parent: Id, files: seq<FileInfo>, order: seq<Id>)
    requires Indexed(n) && forall f :: f in files ==> !IsPending(f.id)
    ensures Indexed(StoreListing(n, parent, files, order))
  {
    RegisterFrame(n, parent, files);
    IndexedFrame(n, StoreListing(n, parent, files, order));
  }

  /** The new listing itself, before it is cached. */
  lemma ListingGood(n: Names, parent: Id, files: seq<FileInfo>, order: seq<Id>, fh: nat)
    requires Visible(n, fh) && CoversKeys(order, n.pendingParents)
    requires forall f :: f in files ==> !IsPending(f.id)
    ensures var m := RegisterAll(n, parent, files);
            var list := InjectKnown(m, parent, CarryAll(files, PendingOnly(Cached(n, parent))), order);
            && Visible(m, fh) && GoodList(m, parent, list)
            && forall p :: p in m.pendingParents && m.pendingParents[p] == parent ==> HasId(list, p)
  {
    var m := RegisterAll(n, parent, files);
    RegisterFrame(n, parent, files);
    VisibleFrame(n, m, fh);
    PendingOnlyGood(m, parent, Cached(n, parent));
    CarryGood(m, parent, files, PendingOnly(Cached(n, parent)));
    InjectGood(m, parent, CarryAll(files, PendingOnly(Cached(n, parent))), order);
  }

  /** Caching a good listing. */
  lemma CachedVisible(m: Names, parent: Id, list: seq<FileInfo>, fh: nat)
    requires Visible(m, fh) && GoodList(m, parent, list)
    requires forall p :: p in m.pendingParents && m.pendingParents[p] == parent ==> HasId(list, p)
    ensures Visible(m.(dirCache := m.dirCache[parent := list]), fh)
  {
    var r := m.(dirCache := m.dirCache[parent := list]);
    forall d | d in r.dirCache ensures GoodList(r, d, r.dirCache[d]) {
      assert GoodList(m, d, r.dirCache[d]);
      assert forall i :: 0 <= i < |r.dirCache[d]| && GoodEntry(m, d, r.dirCache[d][i]) ==>
                           GoodEntry(r, d, r.dirCache[d][i]);
    }
  }

  lemma ListingVisible(n: Names, parent: Id, files: seq<FileInfo>, order: seq<Id>, fh: nat)
    requires Visible(n, fh) && CoversKeys(order, n.pendingParents)
    requires forall f :: f in files ==> !IsPending(f.id)
    ensures Visible(StoreListing(n, parent, files, order), fh)
  {
    var m := RegisterAll(n, parent, files);
    ListingGood(n, parent, files, order, fh);
    CachedVisible(m, parent, InjectKnown(m, parent, CarryAll(files, PendingOnly(Cached(n, parent))), order), fh);
  }

  /** The two namespaces record the same of every placeholder but one. */
  ghost predicate AgreeExcept(n: Names, r: Names, p: Id) {
    forall q :: q != p && IsPending(q) ==>
      && (q in n.pendingParents ==> q in r.pendingParents && r.pendingParents[q] == n.pendingParents[q])
      && (q in n.metadata ==> q in r.metadata && r.metadata[q].name == n.metadata[q].name)
  }

  lemma Lift(n: Names, r: Names, p: Id, d: Id, files: seq<FileInfo>)
    requires AgreeExcept(n, r, p) && GoodList(n, d, files) && !HasId(files, p)
    ensures GoodList(r, d, files)
  {
    forall i | 0 <= i < |files| ensures GoodEntry(r, d, files[i]) {
      assert GoodEntry(n, d, files[i]) && files[i].id != p;
    }
  }

  /** A listing of another parent never shows the placeholder. */
  lemma Elsewhere(n: Names, p: Id, d: Id)
    requires d in n.dirCache && GoodList(n, d, n.dirCache[d]) && IsPending(p)
    requires p !in n.pendingParents || n.pendingParents[p] != d
    ensures !HasId(n.dirCache[d], p)
  {
    assert forall i :: 0 <= i < |n.dirCache[d]| ==> GoodEntry(n, d, n.dirCache[d][i]);
  }

  lemma NewIdIsNew(q: Id, fh: nat)
    requires PendingBelow(q, fh)
    ensures q != PendingId(fh) && PendingBelow(q, fh + 1)
  {
    var k: nat :| k < fh && q == PendingId(k);
    assert k < fh + 1;
    if q == PendingId(fh) {
      PendingIdInjective(k, fh);
    }
  }

  /** What `create` does to placeholders and listings. */
  ghost predicate Created(n: Names, r: Names, parent: Id, p: Id, name: string) {
    && r.pendingParents == n.pendingParents[p := parent]
    && r.metadata == n.metadata[p := Placeholder(p, name)]
    && r.dirCache == if parent in n.dirCache
                     then n.dirCache[parent := AddMissing(n.dirCache[parent], Placeholder(p, name))] else n.dirCache
  }

  lemma CreateShape(n: Names, parent: Id, p: Id, name: string)
    ensures Created(n, Create(n, parent, p, name), parent, p, name)
  {
  }

  lemma CreateIndexed(n: Names, parent: Id, p: Id, name: string)
    requires Indexed(n) && p !in n.pendingParents
    ensures Indexed(Create(n, parent, p, name))
  {
    var r := Create(n, parent, p, name);
    CreateShape(n, parent, p, name);
    assert r.nameIndex == n.nameIndex[NameKey(parent, name, Placeholder(p, name).mime) := p];
  }

  lemma CreateDir(n: Names, r: Names, parent: Id, p: Id, name: string, d: Id)
    requires Created(n, r, parent, p, name)
    requires d in n.dirCache && GoodList(n, d, n.dirCache[d])
    requires IsPending(p) && p !in n.pendingParents
    ensures d in r.dirCache && GoodList(r, d, r.dirCache[d])
    ensures d == parent ==> HasId(r.dirCache[d], p)
    ensures forall q :: HasId(n.dirCache[d], q) ==> HasId(r.dirCache[d], q)
  {
    Elsewhere(n, p, d);
    Lift(n, r, p, d, n.dirCache[d]);
    if d == parent {
      AppendGood(r, d, n.dirCache[d], Placeholder(p, name));
    }
  }

  /** What holds of one cached listing after `p` has gone to `to`. */
  ghost predicate Moved(n: Names, r: Names, to: Id, p: Id, d: Id)
    requires d in n.dirCache
  {
    && d in r.dirCache && GoodList(r, d, r.dirCache[d]) && (d == to ==> HasId(r.dirCache[d], p))
    && forall q :: q != p && HasId(n.dirCache[d], q) ==> HasId(r.dirCache[d], q)
  }

  /** Listings that have gained `p` under `parent` make a new placeholder
      visible. */
  lemma AddedVisible(n: Names, r: Names, parent: Id, p: Id, info: FileInfo, fh: nat)
    requires Visible(n, fh) && p == PendingId(fh) && info.id == p && p !in n.pendingParents
    requires r.pendingParents == n.pendingParents[p := parent] && r.dirCache.Keys == n.dirCache.Keys
    requires r.metadata == n.metadata[p := info]
    requires forall d :: d in n.dirCache ==> Moved(n, r, parent, p, d)
    ensures Visible(r, fh + 1)
  {
    forall q | q in r.pendingParents ensures PendingBelow(q, fh + 1) {
      if q == p {
        assert p == PendingId(fh);
      } else {
        var k: nat :| k < fh && q == PendingId(k);
      }
    }
  }

  lemma CreatedVisible(n: Names, r: Names, parent: Id, p: Id, name: string, fh: nat)
    requires Visible(n, fh) && p == PendingId(fh) && Created(n, r, parent, p, name)
    ensures Visible(r, fh + 1)
  {
    if p in n.pendingParents {
      NewIdIsNew(p, fh);
    }
    forall d | d in n.dirCache ensures Moved(n, r, parent, p, d) {
      CreateDir(n, r, parent, p, name, d);
    }
    AddedVisible(n, r, parent, p, Placeholder(p, name), fh);
  }

  lemma CreateVisible(n: Names, parent: Id, name: string, fh: nat)
    requires Visible(n, fh)
    ensures Visible(Create(n, parent, PendingId(fh), name), fh + 1)
  {
    var p := PendingId(fh);
    var r := Create(n, parent, p, name);
    CreateShape(n, parent, p, name);
    CreatedVisible(n, r, parent, p, name, fh);
  }

  lemma InvalidateIndexed(n: Names, parent: Id)
    requires Indexed(n)
    ensures Indexed(InvalidateDir(n, parent))
  {
    PruneFrame(n.nameIndex, parent, Cached(n, parent));
    IndexedFrame(n, InvalidateDir(n, parent));
  }

  lemma InvalidateVisible(n: Names, parent: Id, fh: nat)
    requires Visible(n, fh)
    ensures Visible(InvalidateDir(n, parent), fh)
  {
    var r := InvalidateDir(n, parent);
    forall d | d in r.dirCache
      ensures GoodList(r, d, r.dirCache[d])
    {
      assert forall i :: 0 <= i < |n.dirCache[d]| && GoodEntry(n, d, n.dirCache[d][i]) ==>
                           GoodEntry(r, d, n.dirCache[d][i]);
    }
  }

  // ── Filtering, renaming and replacing one entry ──

  lemma {:induction false} WithoutEntries(files: seq<FileInfo>, p: Id)
    ensures forall f :: f in Without(files, p) <==> f in files && f.id != p
    ensures NoRepeat(files) ==> NoRepeat(Without(files, p))
    decreases |files|
  {
    if files != [] {
      var init, last := files[..|files| - 1], files[|files| - 1];
      WithoutEntries(init, p);
      assert files == init + [last];
      if NoRepeat(files) && last.id != p {
        var rest := Without(init, p);
        forall i, j | 0 <= i < j < |rest| + 1 && IsPending((rest + [last])[i].id)
          ensures (rest + [last])[i].id != (rest + [last])[j].id
        {
          if j == |rest| {
            assert rest[i] in init;
            var k :| 0 <= k < |init| && init[k] == rest[i];
            assert files[k].id != files[|init|].id;
          }
        }
      }
    }
  }

  lemma HasIdIn(files: seq<FileInfo>, p: Id)
    ensures HasId(files, p) <==> exists f :: f in files && f.id == p
  {
    if HasId(files, p) {
      var i :| 0 <= i < |files| && files[i].id == p;
      assert files[i] in files;
    }
  }

  /** Dropping a placeholder's entry from one parent's listing. */
  lemma WithoutVisible(n: Names, d: Id, p: Id)
    requires GoodList(n, d, Cached(n, d))
    ensures GoodList(n, d, Without(Cached(n, d), p)) && !HasId(Without(Cached(n, d), p), p)
    ensures forall q :: q != p && HasId(Cached(n, d), q) ==> HasId(Without(Cached(n, d), p), q)
  {
    var files := Cached(n, d);
    WithoutEntries(files, p);
    forall i | 0 <= i < |Without(files, p)| ensures GoodEntry(n, d, Without(files, p)[i]) {
      assert Without(files, p)[i] in files;
    }
    HasIdIn(Without(files, p), p);
    forall q | q != p && HasId(files, q) ensures HasId(Without(files, p), q) {
      HasIdIn(files, q);
      HasIdIn(Without(files, p), q);
    }
  }

  /** What holds of one cached listing after the placeholder `p` has left. */
  ghost predicate Rid(n: Names, r: Names, p: Id, d: Id)
    requires d in n.dirCache
  {
    && d in r.dirCache && GoodList(r, d, r.dirCache[d]) && !HasId(r.dirCache[d], p)
    && forall q :: q != p && HasId(n.dirCache[d], q) ==> HasId(r.dirCache[d], q)
  }

  lemma RidVisible(n: Names, r: Names, p: Id, fh: nat)
    requires Visible(n, fh) && IsPending(p)
    requires r.pendingParents == n.pendingParents - {p} && r.dirCache.Keys == n.dirCache.Keys
    requires forall q :: q != p && IsPending(q) && q in n.metadata ==> q in r.metadata && r.metadata[q] == n.metadata[q]
    requires forall d :: d in n.dirCache ==> Rid(n, r, p, d)
    ensures Visible(r, fh) && Unlisted(r, p)
  {
  }

  lemma RemoveVisible(n: Names, parent: Id, p: Id, fh: nat)
    requires Visible(n, fh) && IsPending(p)
    requires p in n.pendingParents ==> n.pendingParents[p] == parent
    ensures Visible(RemovePending(n, parent, p), fh) && Unlisted(RemovePending(n, parent, p), p)
  {
    var r := RemovePending(n, parent, p);
    forall d | d in n.dirCache ensures Rid(n, r, p, d) {
      if d == parent {
        WithoutVisible(n, d, p);
      } else {
        Elsewhere(n, p, d);
      }
      Lift(n, r, p, d, r.dirCache[d]);
    }
    RidVisible(n, r, p, fh);
  }

  lemma RemoveIndexed(n: Names, parent: Id, p: Id)
    requires Indexed(n) && IsPending(p) && (p in n.pendingParents ==> n.pendingParents[p] == parent)
    ensures Indexed(RemovePending(n, parent, p)) && Unindexed(RemovePending(n, parent, p), p)
    ensures p !in RemovePending(n, parent, p).metadata && p !in RemovePending(n, parent, p).idToIno
  {
  }

  lemma OnlyPosition(files: seq<FileInfo>, p: Id)
    requires NoRepeat(files) && IsPending(p)
    ensures forall k :: 0 <= k < |files| && files[k].id == p ==> k == PositionOf(files, p)
  {
  }

  lemma ReplaceEntryGood(n: Names, d: Id, p: Id, info: FileInfo)
    requires d in n.dirCache && GoodList(n, d, n.dirCache[d]) && IsPending(p) && !IsPending(info.id)
    ensures var list := ReplaceEntry(n.dirCache[d], p, info);
            && GoodList(n, d, list) && !HasId(list, p)
            && forall q :: q != p && HasId(n.dirCache[d], q) ==> HasId(list, q)
  {
    var was, list := n.dirCache[d], ReplaceEntry(n.dirCache[d], p, info);
    var i := PositionOf(was, p);
    if i == |was| {
      AppendGood(n, d, was, info);
    } else {
      OnlyPosition(was, p);
      assert forall k :: 0 <= k < |list| ==> list[k] == if k == i then info else was[k];
      forall q | q != p && HasId(was, q) ensures HasId(list, q) {
        var k :| 0 <= k < |was| && was[k].id == q;
        assert list[k].id == q;
      }
    }
  }

  lemma ReplaceVisible(n: Names, p: Id, parent: Id, info: FileInfo, fh: nat)
    requires Visible(n, fh) && IsPending(p) && !IsPending(info.id)
    requires p in n.pendingParents ==> n.pendingParents[p] == parent
    ensures Visible(ReplacePending(n, p, parent, info), fh) && Unlisted(ReplacePending(n, p, parent, info), p)
  {
    var r := ReplacePending(n, p, parent, info);
    forall d | d in n.dirCache ensures Rid(n, r, p, d) {
      if d == parent {
        ReplaceEntryGood(n, d, p, info);
      } else {
        Elsewhere(n, p, d);
      }
      Lift(n, r, p, d, r.dirCache[d]);
    }
    RidVisible(n, r, p, fh);
  }

  lemma ReplaceIndexed(n: Names, p: Id, parent: Id, info: FileInfo)
    requires Indexed(n) && IsPending(p) && !IsPending(info.id)
    requires p in n.pendingParents ==> n.pendingParents[p] == parent
    ensures var r := ReplacePending(n, p, parent, info);
            Indexed(r) && Unindexed(r, p) && p !in r.metadata && p !in r.idToIno
  {
    assert SwapIno(n, p, info.id).metadata == n.metadata;
  }

  /** Another parent than the recorded one leaves the recorded one's listing
      as it is. */
  lemma ReplacedAway(n: Names, p: Id, parent: Id, info: FileInfo, fh: nat)
    requires Visible(n, fh) && p in n.pendingParents && n.pendingParents[p] != parent && !IsPending(info.id)
    ensures Unlisted(ReplacePending(n, p, parent, info), p) <==> n.pendingParents[p] !in n.dirCache
  {
    var r := ReplacePending(n, p, parent, info);
    var home := n.pendingParents[p];
    forall d | d in n.dirCache && d != home ensures !HasId(n.dirCache[d], p) {
      assert forall i :: 0 <= i < |n.dirCache[d]| ==> GoodEntry(n, d, n.dirCache[d][i]);
    }
    if home in n.dirCache {
      assert r.dirCache[home] == n.dirCache[home];
    } else {
      forall d | d in r.dirCache ensures !HasId(r.dirCache[d], p) {
        if d == parent {
          assert PositionOf(n.dirCache[d], p) == |n.dirCache[d]|;
        }
      }
    }
  }

  /** The name-index key under which a live placeholder can be found. */
  function HomeKey(n: Names, p: Id): string
    requires p in n.pendingParents && p in n.metadata
  {
    NameKey(n.pendingParents[p], n.metadata[p].name, n.metadata[p].mime)
  }

  /** The placeholder can be found by its name. */
  predicate FoundByName(n: Names, p: Id)
    requires p in n.pendingParents && p in n.metadata
  {
    HomeKey(n, p) in n.nameIndex && n.nameIndex[HomeKey(n, p)] == p
  }

  /** One name under two parents has two keys. */
  lemma KeysDiffer(a: Id, b: Id, name: string, mime: string)
    requires a != b
    ensures NameKey(a, name, mime) != NameKey(b, name, mime)
  {
    var k, l := NameKey(a, name, mime), NameKey(b, name, mime);
    assert k[..|a|] == a && l[..|b|] == b;
    assert |k| - |a| == |l| - |b|;
  }

  lemma ReplacedIndex(n: Names, p: Id, parent: Id, info: FileInfo)
    requires Indexed(n) && p in n.pendingParents && p in n.metadata && n.pendingParents[p] != parent
    requires IsPending(p) && !IsPending(info.id)
    ensures Unindexed(ReplacePending(n, p, parent, info), p) <==>
            !FoundByName(n, p) || HomeKey(n, p) == NameKey(parent, info.name, info.mime)
  {
    var r, k := ReplacePending(n, p, parent, info), HomeKey(n, p);
    var stale := NameKey(parent, n.metadata[p].name, n.metadata[p].mime);
    KeysDiffer(n.pendingParents[p], parent, n.metadata[p].name, n.metadata[p].mime);
    assert r.nameIndex == (n.nameIndex - {stale})[NameKey(parent, info.name, info.mime) := info.id];
    if FoundByName(n, p) && k != NameKey(parent, info.name, info.mime) {
      assert r.nameIndex[k] == p;
    }
  }

  /** Exactly when a replacement leaves no trace of the pending id anywhere in
      the namespace: the caller names the current parent, or the current
      parent's listing is not cached and its name cannot be found either. */
  lemma ReplaceLeavesNoTrace(n: Names, p: Id, parent: Id, info: FileInfo, fh: nat)
    requires Visible(n, fh) && Indexed(n) && p in n.pendingParents && !IsPending(info.id)
    ensures Nowhere(ReplacePending(n, p, parent, info), p)
            <==> n.pendingParents[p] == parent
                 || (n.pendingParents[p] !in n.dirCache
                     && (!FoundByName(n, p) || HomeKey(n, p) == NameKey(parent, info.name, info.mime)))
  {
    assert p !in ReplacePending(n, p, parent, info).metadata && p !in ReplacePending(n, p, parent, info).idToIno;
    if n.pendingParents[p] == parent {
      ReplaceVisible(n, p, parent, info, fh);
      ReplaceIndexed(n, p, parent, info);
    } else {
      ReplacedAway(n, p, parent, info, fh);
      ReplacedIndex(n, p, parent, info);
    }
  }

  lemma RemovedAway(n: Names, p: Id, parent: Id, fh: nat)
    requires Visible(n, fh) && p in n.pendingParents && n.pendingParents[p] != parent
    ensures Unlisted(RemovePending(n, parent, p), p) <==> n.pendingParents[p] !in n.dirCache
    ensures n.pendingParents[p] in n.dirCache ==> !Visible(RemovePending(n, parent, p), fh)
  {
    var r, home := RemovePending(n, parent, p), n.pendingParents[p];
    if home in n.dirCache {
      assert r.dirCache[home] == n.dirCache[home] && HasId(n.dirCache[home], p);
      var i :| 0 <= i < |n.dirCache[home]| && n.dirCache[home][i].id == p;
      assert !GoodEntry(r, home, r.dirCache[home][i]);
    } else {
      forall d | d in r.dirCache ensures !HasId(r.dirCache[d], p) {
        Elsewhere(n, p, d);
        if d == parent {
          WithoutVisible(n, d, p);
        }
      }
    }
  }

  lemma RemovedIndex(n: Names, p: Id, parent: Id)
    requires Indexed(n) && p in n.pendingParents && p in n.metadata && n.pendingParents[p] != parent && IsPending(p)
    ensures Unindexed(RemovePending(n, parent, p), p) <==> !FoundByName(n, p)
  {
    var r := RemovePending(n, parent, p);
    KeysDiffer(n.pendingParents[p], parent, n.metadata[p].name, n.metadata[p].mime);
    assert r.nameIndex == n.nameIndex - {NameKey(parent, n.metadata[p].name, n.metadata[p].mime)};
    if FoundByName(n, p) {
      assert r.nameIndex[HomeKey(n, p)] == p;
    }
  }

  /** The same for a removal, after Drive has refused a creation. */
  lemma RemoveLeavesNoTrace(n: Names, p: Id, parent: Id, fh: nat)
    requires Visible(n, fh) && Indexed(n) && p in n.pendingParents
    ensures Nowhere(RemovePending(n, parent, p), p)
            <==> n.pendingParents[p] == parent || (n.pendingParents[p] !in n.dirCache && !FoundByName(n, p))
  {
    assert p !in RemovePending(n, parent, p).metadata && p !in RemovePending(n, parent, p).idToIno;
    if n.pendingParents[p] == parent {
      RemoveVisible(n, parent, p, fh);
      RemoveIndexed(n, parent, p);
    } else {
      RemovedAway(n, p, parent, fh);
      RemovedIndex(n, p, parent);
    }
  }

  lemma RenameEntryGood(n: Names, r: Names, d: Id, p: Id, name: string)
    requires d in n.dirCache && GoodList(n, d, n.dirCache[d]) && HasId(n.dirCache[d], p)
    requires p in n.pendingParents && n.pendingParents[p] == d && r.pendingParents == n.pendingParents
    requires p in n.metadata && r.metadata == n.metadata[p := n.metadata[p].(name := name)] && IsPending(p)
    ensures GoodList(r, d, RenameEntry(n.dirCache[d], p, name)) && HasId(RenameEntry(n.dirCache[d], p, name), p)
    ensures forall q :: HasId(n.dirCache[d], q) ==> HasId(RenameEntry(n.dirCache[d], p, name), q)
  {
    var was, list := n.dirCache[d], RenameEntry(n.dirCache[d], p, name);
    OnlyPosition(was, p);
    assert forall k :: 0 <= k < |was| ==> list[k].id == was[k].id;
    forall k | 0 <= k < |list| ensures GoodEntry(r, d, list[k]) {
      assert GoodEntry(n, d, was[k]);
    }
    forall q | HasId(was, q) ensures HasId(list, q) {
      var k :| 0 <= k < |was| && was[k].id == q;
      assert list[k].id == q;
    }
  }

  lemma RenameDir(n: Names, from: Id, to: Id, p: Id, name: string, d: Id)
    requires d in n.dirCache && GoodList(n, d, n.dirCache[d]) && IsPending(p)
    requires p in n.pendingParents && n.pendingParents[p] == from && p in n.metadata && n.metadata[p].id == p
    requires d == from ==> HasId(n.dirCache[d], p)
    ensures var r := RenamePending(n, from, to, p, name);
            && d in r.dirCache && GoodList(r, d, r.dirCache[d])
            && (d == to ==> HasId(r.dirCache[d], p))
            && forall q :: q != p && HasId(n.dirCache[d], q) ==> HasId(r.dirCache[d], q)
  {
    var r := RenamePending(n, from, to, p, name);
    if from == to && d == from {
      RenameEntryGood(n, r, d, p, name);
    } else if d == from {
      WithoutVisible(n, d, p);
      Lift(n, r, p, d, r.dirCache[d]);
    } else {
      Elsewhere(n, p, d);
      Lift(n, r, p, d, n.dirCache[d]);
      if d == to {
        AppendGood(r, d, n.dirCache[d], n.metadata[p].(name := name));
      }
    }
  }

  lemma MovedVisible(n: Names, r: Names, to: Id, p: Id, info: FileInfo, fh: nat)
    requires Visible(n, fh) && p in n.pendingParents && info.id == p
    requires r.pendingParents == n.pendingParents[p := to] && r.dirCache.Keys == n.dirCache.Keys
    requires r.metadata == n.metadata[p := info]
    requires forall d :: d in n.dirCache ==> Moved(n, r, to, p, d)
    ensures Visible(r, fh)
  {
  }

  lemma RenameShape(n: Names, from: Id, to: Id, p: Id, name: string)
    requires p in n.metadata
    ensures var r := RenamePending(n, from, to, p, name);
            && r.metadata == n.metadata[p := n.metadata[p].(name := name)]
            && r.pendingParents == n.pendingParents[p := to]
            && r.idToIno == n.idToIno && r.inoToId == n.inoToId && r.nextIno == n.nextIno
            && r.nameIndex == (n.nameIndex - {NameKey(from, n.metadata[p].name, n.metadata[p].mime)})
                              [NameKey(to, name, n.metadata[p].mime) := p]
  {
  }

  lemma RenameVisible(n: Names, from: Id, to: Id, p: Id, name: string, fh: nat)
    requires Visible(n, fh) && p in n.pendingParents && n.pendingParents[p] == from
    ensures Visible(RenamePending(n, from, to, p, name), fh)
  {
    var r := RenamePending(n, from, to, p, name);
    forall d | d in n.dirCache ensures Moved(n, r, to, p, d) {
      RenameDir(n, from, to, p, name, d);
    }
    RenameShape(n, from, to, p, name);
    MovedVisible(n, r, to, p, n.metadata[p].(name := name), fh);
  }

  lemma RenameIndexed(n: Names, from: Id, to: Id, p: Id, name: string)
    requires Indexed(n) && p in n.pendingParents && n.pendingParents[p] == from && p in n.metadata
    ensures Indexed(RenamePending(n, from, to, p, name))
  {
    RenameShape(n, from, to, p, name);
  }

  // ── Rows, metadata and the uploader agree ──

  /** A dirty placeholder's row has its live name and its recorded parent. */
  ghost predicate RowsAgree(c: Client) {
    forall p :: p in c.names.pendingParents && Dirty(c.rows, p) && p in c.names.metadata ==>
      c.rows[p].name == c.names.metadata[p].name && c.rows[p].parent == c.names.pendingParents[p]
  }

  /** Drive answers properly, and what has just been loaded is still dirty. */
  ghost predicate UploadPlausible(w: World) {
    && (w.up.Sent? ==> FromDrive(w.up.info) && (!IsPending(w.up.id) ==> w.up.info.id == w.up.id))
    && (w.up.Loaded? && IsPending(w.up.id) ==> Dirty(w.client.rows, w.up.id))
    && (w.up.Refused? ==> IsPending(w.up.id))
  }

  ghost predicate Inv(w: World) {
    Visible(w.client.names, w.nextFh) && Indexed(w.client.names) && RowsAgree(w.client) && UploadPlausible(w)
  }

  /** A placeholder is replaced or removed under the parent that it still has:
      no move came after the uploader had read the row.  And a new file does
      not get the number of an unsent one left from before a crash. */
  ghost predicate AtHome(w: World, e: Event) {
    && (e.UploadNames? || e.UploadForget? ==>
          (w.up.Sent? || w.up.Refused?) && w.up.id in w.client.names.pendingParents ==>
            w.client.names.pendingParents[w.up.id] == w.up.parent)
    && (e.CreateFile? ==> !Dirty(w.client.rows, PendingId(w.nextFh)))
  }

  lemma ResizeShape(n: Names, id: Id, size: nat)
    ensures Resize(n, id, size).metadata.Keys == n.metadata.Keys
    ensures forall p :: p in n.metadata ==>
              var f := Resize(n, id, size).metadata[p];
              f.name == n.metadata[p].name && f.id == n.metadata[p].id && f.mime == n.metadata[p].mime
  {
  }

  lemma AllocShape(n: Names, id: Id, size: nat)
    ensures var r := Alloc(Resize(n, id, size), id);
            && r.pendingParents == n.pendingParents && r.dirCache == n.dirCache && r.nameIndex == n.nameIndex
            && r.metadata == Resize(n, id, size).metadata
    ensures var r := Alloc(Resize(n, id, size), id);
            id in r.idToIno && r.idToIno[id] == if id in n.idToIno then n.idToIno[id] else n.nextIno
  {
  }

  lemma UpsertShape(rows: map<Id, Row>, id: Id, row: Row)
    ensures var r := Upsert(rows, id, row);
            && id in r && r[id] == row.(inode := r[id].inode)
            && forall p :: p != id ==> (p in r <==> p in rows) && (p in r ==> r[p] == rows[p])
  {
  }

  lemma WriteNames(n: Names, id: Id, size: nat, fh: nat)
    requires Visible(n, fh) && Indexed(n)
    ensures Visible(Alloc(Resize(n, id, size), id), fh) && Indexed(Alloc(Resize(n, id, size), id))
  {
    ResizeShape(n, id, size);
    AllocShape(n, id, size);
    VisibleFrame(n, Alloc(Resize(n, id, size), id), fh);
    IndexedFrame(n, Alloc(Resize(n, id, size), id));
  }

  lemma WriteRows(c: Client, id: Id, content: Bytes, parent: Id, name: string)
    requires RowsAgree(c)
    requires id in c.names.pendingParents && id in c.names.metadata ==>
               parent == c.names.pendingParents[id] && name == c.names.metadata[id].name
    ensures RowsAgree(WriteLocalDirty(c, id, content, parent, name))
  {
    var n := Alloc(Resize(c.names, id, |content|), id);
    ResizeShape(c.names, id, |content|);
    AllocShape(c.names, id, |content|);
    UpsertShape(c.rows, id, Row(n.idToIno[id], parent, name, None, true));
  }

  lemma WriteKeeps(w: World, id: Id, content: Bytes, parent: Id, name: string, owed: map<Id, Bytes>)
    requires Inv(w)
    requires id in w.client.names.pendingParents && id in w.client.names.metadata ==>
               parent == w.client.names.pendingParents[id] && name == w.client.names.metadata[id].name
    ensures Inv(w.(client := WriteLocalDirty(w.client, id, content, parent, name), owed := owed))
  {
    WriteNames(w.client.names, id, |content|, w.nextFh);
    WriteRows(w.client, id, content, parent, name);
    assert forall p :: Dirty(w.client.rows, p) ==> Dirty(WriteLocalDirty(w.client, id, content, parent, name).rows, p);
  }

  lemma ReleaseKeeps(w: World, e: Event)
    requires Inv(w) && Legal(w, e) && e.ReleaseHandle?
    ensures Inv(Apply(w, e))
  {
    var n := w.client.names;
    var parent := if IsPending(e.id) && e.id in n.pendingParents then n.pendingParents[e.id] else e.parent;
    var name := if IsPending(e.id) && e.id in n.metadata then n.metadata[e.id].name else e.name;
    WriteKeeps(w, e.id, e.content, parent, name, Apply(w, e).owed);
  }

  lemma ChangeRows(c: Client, ch: Change)
    requires !IsPending(ch.id)
    ensures var d := ApplyChange(c, ch);
            forall p :: IsPending(p) ==> (p in d.rows <==> p in c.rows) && (p in c.rows ==> d.rows[p] == c.rows[p])
  {
  }

  lemma ChangeShape(c: Client, ch: Change)
    requires !IsPending(ch.id) && (ch.file.Some? ==> !IsPending(ch.file.value.id))
    ensures var d := ApplyChange(c, ch);
            && d.names.pendingParents == c.names.pendingParents && d.names.dirCache == c.names.dirCache
            && d.names.nameIndex == c.names.nameIndex
            && (forall p :: IsPending(p) ==> (p in d.names.metadata <==> p in c.names.metadata)
                                             && (p in c.names.metadata ==> d.names.metadata[p] == c.names.metadata[p]))
  {
    var d := ApplyChange(c, ch);
    assert d.names.metadata == if ch.removed || ch.file.None? then c.names.metadata - {ch.id}
                               else (c.names.metadata - {ch.id})[ch.file.value.id := ch.file.value];
  }

  lemma FeedKeeps(w: World, ch: Change)
    requires Inv(w) && Legal(w, FeedChange(ch))
    ensures Inv(Apply(w, FeedChange(ch)))
  {
    ChangeRows(w.client, ch);
    ChangeShape(w.client, ch);
    VisibleFrame(w.client.names, ApplyChange(w.client, ch).names, w.nextFh);
    IndexedFrame(w.client.names, ApplyChange(w.client, ch).names);
  }

  lemma CreateKeeps(w: World, e: Event)
    requires Inv(w) && Legal(w, e) && AtHome(w, e) && e.CreateFile?
    ensures Inv(Apply(w, e))
  {
    if PendingId(w.nextFh) in w.client.names.pendingParents {
      NewIdIsNew(PendingId(w.nextFh), w.nextFh);
    }
    CreateVisible(w.client.names, e.parent, e.name, w.nextFh);
    CreateIndexed(w.client.names, e.parent, PendingId(w.nextFh), e.name);
    CreateShape(w.client.names, e.parent, PendingId(w.nextFh), e.name);
  }

  lemma RenameKeeps(w: World, e: Event)
    requires Inv(w) && Legal(w, e) && e.RenamePlaceholder?
    ensures Inv(Apply(w, e))
  {
    RenameVisible(w.client.names, e.from, e.to, e.id, e.name, w.nextFh);
    RenameIndexed(w.client.names, e.from, e.to, e.id, e.name);
  }

  lemma ListingKeeps(w: World, e: Event)
    requires Inv(w) && Legal(w, e) && (e.ListingArrives? || e.Invalidate?)
    ensures Inv(Apply(w, e))
  {
    if e.ListingArrives? {
      ListingVisible(w.client.names, e.parent, e.files, e.order, w.nextFh);
      ListingIndexed(w.client.names, e.parent, e.files, e.order);
      RegisterFrame(w.client.names, e.parent, e.files);
    } else {
      InvalidateVisible(w.client.names, e.parent, w.nextFh);
      InvalidateIndexed(w.client.names, e.parent);
    }
  }

  lemma MetadataKeeps(w: World, e: Event)
    requires Inv(w) && Legal(w, e) && (e.MetadataArrives? || e.Delete?)
    ensures Inv(Apply(w, e))
  {
    VisibleFrame(w.client.names, Apply(w, e).client.names, w.nextFh);
    IndexedFrame(w.client.names, Apply(w, e).client.names);
  }

  lemma RowKeeps(w: World, e: Event)
    requires Inv(w) && Legal(w, e) && (e.UploadRow? || e.UploadRefused?)
    ensures Inv(Apply(w, e))
  {
    var r := Apply(w, e);
    assert r.client.names == w.client.names;
    assert forall p :: IsPending(p) && p in r.client.rows ==>
                         p in w.client.rows && r.client.rows[p] == w.client.rows[p];
  }

  lemma ReplacedRows(c: Client, p: Id, parent: Id, info: FileInfo)
    requires RowsAgree(c) && !IsPending(info.id) && forall q :: q in c.names.pendingParents ==> IsPending(q)
    ensures RowsAgree(c.(names := ReplacePending(c.names, p, parent, info)))
  {
  }

  lemma ReplacedKeeps(w: World)
    requires Inv(w) && Legal(w, UploadNames) && AtHome(w, UploadNames) && IsPending(w.up.id)
    ensures Inv(Apply(w, UploadNames)) && Nowhere(Apply(w, UploadNames).client.names, w.up.id)
  {
    var n := ReplacePending(w.client.names, w.up.id, w.up.parent, w.up.info);
    ReplaceVisible(w.client.names, w.up.id, w.up.parent, w.up.info, w.nextFh);
    ReplaceIndexed(w.client.names, w.up.id, w.up.parent, w.up.info);
    ReplacedRows(w.client, w.up.id, w.up.parent, w.up.info);
    assert Apply(w, UploadNames) == w.(client := w.client.(names := n), up := Idle);
  }

  lemma FinishKeeps(w: World)
    requires Inv(w) && Legal(w, UploadNames) && AtHome(w, UploadNames)
    ensures Inv(Apply(w, UploadNames))
    ensures IsPending(w.up.id) ==> Nowhere(Apply(w, UploadNames).client.names, w.up.id)
  {
    if IsPending(w.up.id) {
      ReplacedKeeps(w);
    } else {
      var n := StoreMetadata(w.client.names, w.up.info);
      VisibleFrame(w.client.names, n, w.nextFh);
      IndexedFrame(w.client.names, n);
      assert Apply(w, UploadNames).client == w.client.(names := n);
    }
  }

  lemma ForgetKeeps(w: World)
    requires Inv(w) && Legal(w, UploadForget) && AtHome(w, UploadForget)
    ensures Inv(Apply(w, UploadForget))
    ensures Nowhere(Apply(w, UploadForget).client.names, w.up.id)
  {
    RemoveVisible(w.client.names, w.up.parent, w.up.id, w.nextFh);
    RemoveIndexed(w.client.names, w.up.parent, w.up.id);
    assert Apply(w, UploadForget).client.names == RemovePending(w.client.names, w.up.parent, w.up.id);
  }

  lemma QuietKeeps(w: World, e: Event)
    requires Inv(w) && Legal(w, e)
    requires e.OpenHandle? || e.Flush? || e.DownloadArrives? || e.ReadContent? || e.RamEviction? || e.DiskEviction?
             || e.UploadLoad? || e.UploadAsk? || e.UploadSend? || e.UploadFail? || e.UploadBlob? || e.UploadContent?
             || e.CrashAndRestart?
    ensures Inv(Apply(w, e))
  {
    match e
    case CrashAndRestart(order) => RestoredIsEmpty(order);
    case OpenHandle =>
      forall q | PendingBelow(q, w.nextFh) ensures PendingBelow(q, w.nextFh + 1) {
        NewIdIsNew(q, w.nextFh);
      }
    case _ =>
  }

  lemma Step(w: World, e: Event)
    requires Inv(w) && Legal(w, e) && AtHome(w, e)
    ensures Inv(Apply(w, e))
  {
    if e.CreateFile? {
      CreateKeeps(w, e);
    } else if e.ReleaseHandle? {
      ReleaseKeeps(w, e);
    } else if e.RenamePlaceholder? {
      RenameKeeps(w, e);
    } else if e.FeedChange? {
      FeedKeeps(w, e.change);
    } else if e.UploadRow? || e.UploadRefused? {
      RowKeeps(w, e);
    } else if e.UploadNames? {
      FinishKeeps(w);
    } else if e.UploadForget? {
      ForgetKeeps(w);
    } else if e.ListingArrives? || e.Invalidate? {
      ListingKeeps(w, e);
    } else if e.MetadataArrives? || e.Delete? {
      MetadataKeeps(w, e);
    } else {
      QuietKeeps(w, e);
    }
  }

  /** A listing that arrives is shown as it is, in order, with nothing but
      placeholders after it. */
  lemma ListingShown(w: World, e: Event)
    requires Inv(w) && Legal(w, e) && e.ListingArrives?
    ensures var n := Apply(w, e).client.names;
            && e.parent in n.dirCache && e.files <= n.dirCache[e.parent]
            && forall f :: f in n.dirCache[e.parent][|e.files|..] ==> IsPending(f.id)
  {
    var n, m := w.client.names, Apply(w, e).client.names;
    Step(w, e);
    L.ListingArrives(n, e.parent, e.files, e.order);
    assert m == StoreListing(n, e.parent, e.files, e.order);
    forall f | f in m.dirCache[e.parent][|e.files|..] ensures IsPending(f.id) {
      assert L.Carried(n, m, e.parent, f);
    }
  }

  ghost predicate AtHomeRun(w: World, es: seq<Event>)
    requires IsRun(w, es)
    decreases |es|
  {
    es == [] || (AtHome(w, es[0]) && AtHomeRun(Apply(w, es[0]), es[1..]))
  }

  lemma {:induction false} InvRun(w: World, es: seq<Event>)
    requires Inv(w) && IsRun(w, es) && AtHomeRun(w, es)
    ensures Inv(Run(w, es))
    decreases |es|
  {
    if es != [] {
      Step(w, es[0]);
      InvRun(Apply(w, es[0]), es[1..]);
    }
  }

  /** Main result: after any run every live placeholder is in exactly its own
      parent's listing, under its live name, a name that leads to it is that
      name, and the rows the uploader reads carry the latest rename and move,
      also one that came while the upload was being prepared. */
  lemma PlaceholdersVisible(ramMax: nat, drive: map<Id, Bytes>, es: seq<Event>)
    requires IsRun(FirstStart(ramMax, drive), es) && AtHomeRun(FirstStart(ramMax, drive), es)
    ensures var w := Run(FirstStart(ramMax, drive), es);
            && Visible(w.client.names, w.nextFh) && Indexed(w.client.names) && RowsAgree(w.client)
  {
    InvRun(FirstStart(ramMax, drive), es);
  }

  /** Main result: once its upload has been finalised or given up, no part of
      the namespace knows a pending id, whatever happened before. */
  lemma PlaceholderGone(ramMax: nat, drive: map<Id, Bytes>, es: seq<Event>, e: Event)
    requires IsRun(FirstStart(ramMax, drive), es) && AtHomeRun(FirstStart(ramMax, drive), es)
    requires e.UploadNames? || e.UploadForget?
    requires Legal(Run(FirstStart(ramMax, drive), es), e) && AtHome(Run(FirstStart(ramMax, drive), es), e)
    requires IsPending(Run(FirstStart(ramMax, drive), es).up.id)
    ensures var w := Run(FirstStart(ramMax, drive), es); Nowhere(Apply(w, e).client.names, w.up.id)
  {
    InvRun(FirstStart(ramMax, drive), es);
    var w := Run(FirstStart(ramMax, drive), es);
    if e.UploadNames? {
      FinishKeeps(w);
    } else {
      ForgetKeeps(w);
    }
  }

  /** The uploader reads the name and parent that the placeholder has when it
      is about to ask Drive, after any run. */
  lemma UploadUsesLatestRename(ramMax: nat, drive: map<Id, Bytes>, es: seq<Event>)
    requires IsRun(FirstStart(ramMax, drive), es) && AtHomeRun(FirstStart(ramMax, drive), es)
    requires Legal(Run(FirstStart(ramMax, drive), es), UploadAsk)
    requires var w := Run(FirstStart(ramMax, drive), es); w.up.id in w.client.names.pendingParents
    ensures var w := Run(FirstStart(ramMax, drive), es);
            var n := w.client.names;
            && w.up.id in w.client.rows && w.up.id in n.metadata
            && w.client.rows[w.up.id].name == n.metadata[w.up.id].name
            && Apply(w, UploadAsk).up.parent == n.pendingParents[w.up.id]
  {
    InvRun(FirstStart(ramMax, drive), es);
  }

  lemma ReleaseShape(c: Client, p: Id, content: Bytes, name: string, parent: Id)
    requires IsPending(p) && p in c.names.pendingParents && p in c.names.metadata && content != []
    ensures Release(c, p, content, name, parent) ==
            WriteLocalDirty(c, p, content, c.names.pendingParents[p], c.names.metadata[p].name)
  {
  }

  lemma CommuteNames(n: Names, from: Id, to: Id, p: Id, newName: string, size: nat)
    requires p in n.metadata
    ensures var a := RenamePending(Alloc(Resize(n, p, size), p), from, to, p, newName);
            var b := Alloc(Resize(RenamePending(n, from, to, p, newName), p, size), p);
            a.metadata == b.metadata && a.pendingParents == b.pendingParents && a.nameIndex == b.nameIndex
  {
    AllocShape(n, p, size);
    RenameShape(Alloc(Resize(n, p, size), p), from, to, p, newName);
    RenameShape(n, from, to, p, newName);
    AllocShape(RenamePending(n, from, to, p, newName), p, size);
  }

  lemma CommuteUpsert(rows: map<Id, Row>, p: Id, ino: nat, parent: Id, name: string, to: Id, newName: string)
    ensures var released := Upsert(rows, p, Row(ino, parent, name, None, true));
            var renamed := if p in rows then Upsert(rows, p, rows[p].(parent := to, name := newName)) else rows;
            Upsert(released, p, released[p].(parent := to, name := newName))
            == Upsert(renamed, p, Row(ino, to, newName, None, true))
  {
  }

  lemma CommuteRows(c: Client, from: Id, to: Id, p: Id, newName: string, content: Bytes, name: string, parent: Id)
    requires IsPending(p) && p in c.names.pendingParents && p in c.names.metadata && content != []
    ensures Rename(Release(c, p, content, name, parent), from, to, p, newName).rows
            == Release(Rename(c, from, to, p, newName), p, content, name, parent).rows
  {
    var renamed := Rename(c, from, to, p, newName);
    ReleaseShape(c, p, content, name, parent);
    RenameShape(c.names, from, to, p, newName);
    ReleaseShape(renamed, p, content, name, parent);
    AllocShape(c.names, p, |content|);
    AllocShape(renamed.names, p, |content|);
    var ino := if p in c.names.idToIno then c.names.idToIno[p] else c.names.nextIno;
    CommuteUpsert(c.rows, p, ino, c.names.pendingParents[p], c.names.metadata[p].name, to, newName);
  }

  /** A rename and a release of one placeholder commute: rows, live metadata,
      parents, name index and content end up the same in either order. */
  lemma RenameReleaseCommute(c: Client, from: Id, to: Id, p: Id, newName: string, content: Bytes, name: string,
                             parent: Id)
    requires IsPending(p) && p in c.names.pendingParents && p in c.names.metadata
    ensures var a := Rename(Release(c, p, content, name, parent), from, to, p, newName);
            var b := Release(Rename(c, from, to, p, newName), p, content, name, parent);
            && a.rows == b.rows && a.tiers == b.tiers
            && a.names.metadata == b.names.metadata
            && a.names.pendingParents == b.names.pendingParents
            && a.names.nameIndex == b.names.nameIndex
  {
    if content != [] {
      CommuteRows(c, from, to, p, newName, content, name, parent);
      CommuteNames(c.names, from, to, p, newName, |content|);
      ReleaseShape(c, p, content, name, parent);
      ReleaseShape(Rename(c, from, to, p, newName), p, content, name, parent);
    }
  }
}
