/** The background cleaner: least-recently-used eviction of disk files down to
    a byte budget. */
module CacheCleaner {
  import opened Basics
  import opened ContentTiers
  import opened Names
  import opened Client
  import opened Sorting
  import opened ClientRun

  /** A scanned file: its name, which is its cache key, its size and its age. */
  datatype File = File(name: Key, size: nat, atime: nat)

  predicate Older(x: File, y: File) { x.atime <= y.atime }

  function Total(files: seq<File>): nat {
    if files == [] then 0 else Total(files[..|files| - 1]) + files[|files| - 1].size
  }

  function NamesIn(files: seq<File>): set<Key> {
    if files == [] then {} else NamesIn(files[..|files| - 1]) + {files[|files| - 1].name}
  }

  lemma {:induction false} NamesInFacts(files: seq<File>)
    ensures NamesIn(files) == set f | f in files :: f.name
  {
    if files != [] {
      NamesInFacts(files[..|files| - 1]);
      assert files == files[..|files| - 1] + [files[|files| - 1]];
    }
  }

  /** A scan of the content directory, in the order the directory is read. */
  ghost predicate Scans(order: seq<File>, disk: map<Key, Bytes>) {
    && (forall f :: f in order ==> f.name in disk && f.size == |disk[f.name]|)
    && (forall k :: k in disk ==> k in NamesIn(order))
    && (forall i, j :: 0 <= i < j < |order| ==> order[i].name != order[j].name)
  }

  /** A pass can remove the file: it is evictable, and unlinking it works. */
  predicate Removable(f: File, rows: map<Id, Row>, stuck: set<Key>) {
    Evictable(rows, f.name) && f.name !in stuck
  }

  /** A temporary, pending or dirty file. */
  predicate Protected(name: Key, rows: map<Id, Row>) {
    || (4 <= |name| && name[|name| - 4..] == ".tmp")
    || PENDING <= name
    || (name in rows && rows[name].dirty)
  }

  lemma ProtectedStays(name: Key, rows: map<Id, Row>)
    ensures Evictable(rows, name) <==> !Protected(name, rows)
  {
  }

  /** The files that a pass can remove, oldest first. */
  function Candidates(sorted: seq<File>, rows: map<Id, Row>, stuck: set<Key>): (r: seq<File>)
    ensures forall f :: f in r <==> f in sorted && Removable(f, rows, stuck)
  {
    if sorted == [] then []
    else
      var f, rest := sorted[|sorted| - 1], Candidates(sorted[..|sorted| - 1], rows, stuck);
      if Removable(f, rows, stuck) then rest + [f] else rest
  }

  function Overrun(order: seq<File>, budget: nat): nat {
    if Total(order) <= budget then 0 else Total(order) - budget
  }

  /** `removed` is the shortest run of the oldest candidates that frees `need`
      bytes, or all of them if they do not suffice. */
  predicate ShortestPrefix(removed: seq<File>, candidates: seq<File>, need: nat) {
    && removed <= candidates
    && (Total(removed) >= need || removed == candidates)
    && (removed != [] ==> Total(removed[..|removed| - 1]) < need)
  }

  predicate Pass(order: seq<File>, budget: nat, rows: map<Id, Row>, stuck: set<Key>, removed: seq<File>) {
    ShortestPrefix(removed, Candidates(Sort(order, Older), rows, stuck), Overrun(order, budget))
  }

  lemma MinusBoth(m: map<Key, Bytes>, a: set<Key>, b: set<Key>)
    ensures m - a - b == m - (a + b)
  {
  }

  method TotalBytes(order: seq<File>) returns (total: nat)
    ensures total == Total(order)
  {
    total := 0;
    for i := 0 to |order|
      invariant total == Total(order[..i])
    {
      assert order[..i + 1][..i] == order[..i];
      total := total + order[i].size;
    }
    assert order[..|order|] == order;
  }

  lemma {:induction false} CandidatesGrow(sorted: seq<File>, i: nat, rows: map<Id, Row>, stuck: set<Key>)
    requires i <= |sorted|
    ensures Candidates(sorted[..i], rows, stuck) <= Candidates(sorted, rows, stuck)
    decreases |sorted|
  {
    if i < |sorted| {
      var init := sorted[..|sorted| - 1];
      CandidatesGrow(init, i, rows, stuck);
      assert init[..i] == sorted[..i];
    } else {
      assert sorted[..i] == sorted;
    }
  }

  lemma CandidatesStep(sorted: seq<File>, i: nat, rows: map<Id, Row>, stuck: set<Key>)
    requires i < |sorted|
    ensures Candidates(sorted[..i + 1], rows, stuck) ==
            Candidates(sorted[..i], rows, stuck) + if Removable(sorted[i], rows, stuck) then [sorted[i]] else []
  {
    assert sorted[..i + 1][..i] == sorted[..i];
  }

  lemma PrefixStep(removed: seq<File>, candidates: seq<File>, f: File, need: nat)
    requires ShortestPrefix(removed, candidates, need) && Total(removed) < need
    ensures ShortestPrefix(removed + [f], candidates + [f], need)
    ensures Total(removed + [f]) == Total(removed) + f.size
    ensures NamesIn(removed + [f]) == NamesIn(removed) + {f.name}
  {
    assert (removed + [f])[..|removed|] == removed;
  }

  class CacheCleaner {
    var disk: map<Key, Bytes>
    const budget: nat

    constructor (disk: map<Key, Bytes>, budget: nat)
      ensures this.disk == disk && this.budget == budget
    {
      this.disk, this.budget := disk, budget;
    }

    /** `clean_once`, after a scan of the directory gave `order`. */
    method CleanOnce(order: seq<File>, rows: map<Id, Row>, stuck: set<Key>) returns (freed: nat, removed: seq<File>)
      modifies this`disk
      ensures Pass(order, budget, rows, stuck, removed)
      ensures freed == Total(removed) && disk == old(disk) - NamesIn(removed)
    {
      var total := TotalBytes(order);
      freed, removed := 0, [];
      if total <= budget {
        return;
      }
      freed, removed := Evict(Sort(order, Older), total - budget, rows, stuck);
    }

    /** The eviction loop of `clean_once`. */
    method Evict(sorted: seq<File>, overBy: nat, rows: map<Id, Row>, stuck: set<Key>)
      returns (freed: nat, removed: seq<File>)
      modifies this`disk
      ensures ShortestPrefix(removed, Candidates(sorted, rows, stuck), overBy)
      ensures freed == Total(removed) && disk == old(disk) - NamesIn(removed)
    {
      freed, removed := 0, [];
      for i := 0 to |sorted|
        invariant freed == Total(removed)
        invariant ShortestPrefix(removed, Candidates(sorted[..i], rows, stuck), overBy)
        invariant disk == old(disk) - NamesIn(removed)
      {
        if freed >= overBy {
          CandidatesGrow(sorted, i, rows, stuck);
          return;
        }
        var f := sorted[i];
        CandidatesStep(sorted, i, rows, stuck);
        if EndsWith(f.name, ".tmp") || PENDING <= f.name || (f.name in rows && rows[f.name].dirty) {
          continue;
        }
        if f.name !in stuck {
          PrefixStep(removed, Candidates(sorted[..i], rows, stuck), f, overBy);
          MinusBoth(old(disk), NamesIn(removed), {f.name});
          disk := disk - {f.name};
          freed := freed + f.size;
          removed := removed + [f];
        }
      }
      assert sorted[..|sorted|] == sorted;
    }
  }

  // ── What a pass achieves ──

  lemma {:induction false} TotalAppend(a: seq<File>, b: seq<File>)
    ensures Total(a + b) == Total(a) + Total(b)
    decreases |b|
  {
    if b == [] {
      assert a + b == a;
    } else {
      assert (a + b)[..|a + b| - 1] == a + b[..|b| - 1];
      TotalAppend(a, b[..|b| - 1]);
    }
  }

  lemma TotalAround(a: seq<File>, f: File, b: seq<File>)
    ensures Total(a + [f] + b) == Total(a + b) + f.size
  {
    TotalAppend(a + [f], b);
    TotalAppend(a, [f]);
    TotalAppend(a, b);
    assert [f][..0] == [];
  }

  lemma RestAround(a: seq<File>, f: File, b: seq<File>)
    ensures multiset(a + b) == multiset(a + [f] + b) - multiset{f}
  {
    assert multiset(a + [f] + b) == multiset(a) + multiset{f} + multiset(b);
  }

  lemma SplitAt(s: seq<File>, i: nat) returns (a: seq<File>, b: seq<File>)
    requires i < |s|
    ensures s == a + [s[i]] + b && |a| + |b| == |s| - 1
  {
    a, b := s[..i], s[i + 1..];
  }

  lemma {:induction false} TotalPermutation(a: seq<File>, b: seq<File>)
    requires multiset(a) == multiset(b)
    ensures Total(a) == Total(b)
    decreases |a|
  {
    if a == [] {
      assert |b| == |multiset(b)| == 0;
    } else {
      assert a[0] in multiset(a);
      assert a[0] in b;
      var i: nat :| i < |b| && b[i] == a[0];
      var a1, a2 := SplitAt(a, 0);
      var b1, b2 := SplitAt(b, i);
      RestAround(a1, a[0], a2);
      RestAround(b1, a[0], b2);
      TotalPermutation(a1 + a2, b1 + b2);
      TotalAround(a1, a[0], a2);
      TotalAround(b1, a[0], b2);
    }
  }

  lemma LongerIsNotShortest(removed: seq<File>, other: seq<File>, candidates: seq<File>, need: nat)
    requires ShortestPrefix(removed, candidates, need) && ShortestPrefix(other, candidates, need)
    ensures |other| <= |removed|
  {
    if |removed| < |other| {
      var tail := other[|removed|..|other| - 1];
      assert other[..|other| - 1] == removed + tail;
      TotalAppend(removed, tail);
    }
  }

  /** A pass is determined by the scan: no other list of files fits. */
  lemma PassUnique(removed: seq<File>, other: seq<File>, candidates: seq<File>, need: nat)
    requires ShortestPrefix(removed, candidates, need) && ShortestPrefix(other, candidates, need)
    ensures removed == other
  {
    if |removed| < |other| {
      LongerIsNotShortest(removed, other, candidates, need);
    } else if |other| < |removed| {
      LongerIsNotShortest(other, removed, candidates, need);
    }
  }

  lemma {:induction false} CandidatesMultiset(s: seq<File>, rows: map<Id, Row>, stuck: set<Key>)
    ensures multiset(Candidates(s, rows, stuck)) <= multiset(s)
  {
    if s != [] {
      CandidatesMultiset(s[..|s| - 1], rows, stuck);
      assert s == s[..|s| - 1] + [s[|s| - 1]];
    }
  }

  /** The removed files are files of the directory, each once. */
  lemma RemovedOnce(order: seq<File>, budget: nat, rows: map<Id, Row>, stuck: set<Key>, removed: seq<File>)
    requires Pass(order, budget, rows, stuck, removed)
    ensures multiset(removed) <= multiset(order)
  {
    var sorted := Sort(order, Older);
    var candidates := Candidates(sorted, rows, stuck);
    SortMultiset(order, Older);
    CandidatesMultiset(sorted, rows, stuck);
    assert candidates == removed + candidates[|removed|..];
    assert multiset(candidates) == multiset(removed) + multiset(candidates[|removed|..]);
  }

  lemma NamesTell(order: seq<File>)
    requires forall i, j :: 0 <= i < j < |order| ==> order[i].name != order[j].name
    ensures forall f, g :: f in order && g in order && f.name == g.name ==> f == g
  {
  }

  lemma AfterIsRest(order: seq<File>, removed: seq<File>, disk: map<Key, Bytes>, after: seq<File>, f: File)
    requires Scans(order, disk) && Scans(after, disk - NamesIn(removed))
    requires (forall g :: g in after ==> g in order) && (forall g :: g in removed ==> g in order)
    ensures f in after <==> f in order && f !in removed
  {
    NamesTell(order);
    NamesInFacts(removed);
    NamesInFacts(after);
    if f in order && f !in removed {
      assert f.name in NamesIn(after);
      var h :| h in after && h.name == f.name;
    }
  }

  /** Main result: bytes before are bytes after plus bytes freed. */
  lemma BytesConserved(order: seq<File>, budget: nat, rows: map<Id, Row>, stuck: set<Key>, removed: seq<File>,
                       disk: map<Key, Bytes>, after: seq<File>)
    requires Scans(order, disk) && Pass(order, budget, rows, stuck, removed)
    requires Scans(after, disk - NamesIn(removed)) && forall f :: f in after ==> f in order
    ensures Total(order) == Total(after) + Total(removed)
  {
    RemovedOnce(order, budget, rows, stuck, removed);
    forall f ensures multiset(order)[f] == multiset(after + removed)[f] {
      DistinctMultiset(order, f);
      DistinctMultiset(after, f);
      AfterIsRest(order, removed, disk, after, f);
      assert multiset(after + removed)[f] == multiset(after)[f] + multiset(removed)[f];
      assert multiset(removed)[f] <= multiset(order)[f];
      assert f in removed <==> multiset(removed)[f] > 0;
    }
    assert multiset(order) == multiset(after + removed);
    TotalPermutation(order, after + removed);
    TotalAppend(after, removed);
  }

  /** Main result: a pass ends within the budget exactly when the evictable
      files were large enough for it; otherwise it removes every one of them
      and only protected files remain. */
  lemma BudgetReached(order: seq<File>, budget: nat, rows: map<Id, Row>, stuck: set<Key>, removed: seq<File>,
                      disk: map<Key, Bytes>, after: seq<File>)
    requires Scans(order, disk) && Pass(order, budget, rows, stuck, removed)
    requires Scans(after, disk - NamesIn(removed)) && forall f :: f in after ==> f in order
    ensures Total(after) <= budget <==>
            Overrun(order, budget) <= Total(Candidates(Sort(order, Older), rows, stuck))
    ensures removed != [] ==> Total(order) > budget + Total(removed[..|removed| - 1])
    ensures Total(after) > budget ==> forall f :: f in after ==> Protected(f.name, rows) || f.name in stuck
  {
    var candidates := Candidates(Sort(order, Older), rows, stuck);
    BytesConserved(order, budget, rows, stuck, removed, disk, after);
    assert candidates == removed + candidates[|removed|..];
    TotalAppend(removed, candidates[|removed|..]);
    if Total(after) > budget {
      assert removed == candidates;
      forall f | f in after ensures Protected(f.name, rows) || f.name in stuck {
        AfterIsRest(order, removed, disk, after, f);
        ProtectedStays(f.name, rows);
      }
    }
  }

  lemma {:induction false} CandidatesSorted(s: seq<File>, rows: map<Id, Row>, stuck: set<Key>)
    requires Sorted(s, Older)
    ensures Sorted(Candidates(s, rows, stuck), Older)
  {
    if s != [] {
      var init := s[..|s| - 1];
      CandidatesSorted(init, rows, stuck);
      var kept := Candidates(init, rows, stuck);
      forall k | 0 <= k < |kept| ensures Older(kept[k], s[|s| - 1]) {
        assert kept[k] in kept;
        var i :| 0 <= i < |init| && init[i] == kept[k];
      }
    }
  }

  /** Main result: what is removed is at least as old as everything that could
      have been removed instead, and is never a temporary, pending or dirty
      file. */
  lemma LeastRecentlyUsed(order: seq<File>, budget: nat, rows: map<Id, Row>, stuck: set<Key>, removed: seq<File>)
    requires Pass(order, budget, rows, stuck, removed)
    ensures forall f :: f in removed ==> f in order && !Protected(f.name, rows)
    ensures forall f, g ::
              f in removed && g in order && g !in removed && !Protected(g.name, rows) && g.name !in stuck ==>
              f.atime <= g.atime
  {
    var sorted := Sort(order, Older);
    var candidates := Candidates(sorted, rows, stuck);
    assert forall f :: f in removed ==> f in candidates;
    SortSorted(order, Older);
    CandidatesSorted(sorted, rows, stuck);
    forall f | f in removed ensures f in order && !Protected(f.name, rows) {
      ProtectedStays(f.name, rows);
    }
    forall f, g | f in removed && g in order && g !in removed && !Protected(g.name, rows) && g.name !in stuck
      ensures f.atime <= g.atime
    {
      ProtectedStays(g.name, rows);
      assert g in candidates;
      var i :| 0 <= i < |removed| && removed[i] == f;
      var j :| 0 <= j < |candidates| && candidates[j] == g;
      assert candidates[i] == f && Older(candidates[i], candidates[j]);
    }
  }

  /** So a pass is an eviction that the runs of `ClientRun` allow, and what is
      proved of those runs holds with the cleaner at work. */
  lemma PassIsLegal(w: World, order: seq<File>, budget: nat, stuck: set<Key>, removed: seq<File>)
    requires Pass(order, budget, w.client.rows, stuck, removed)
    ensures Legal(w, DiskEviction(NamesIn(removed)))
  {
    LeastRecentlyUsed(order, budget, w.client.rows, stuck, removed);
    NamesInFacts(removed);
  }
}
