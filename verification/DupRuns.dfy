/** Runs of the duplicate-name resolver over many directories and mounts. */
module DupRuns {
  import opened Basics
  import opened Names
  import opened MappingFile
  import opened DupNames

  type Listed = map<Id, set<Id>>

  /** The mapping in memory, the file it is saved in, and, for each directory,
      the ids it listed last. */
  datatype Dirs = Dirs(mapping: Mapping, text: Option<string>, seen: Listed)

  datatype Event =
    | List(dir: Id, files: seq<FileInfo>)
    | Remount

  ghost predicate Seen(seen: Listed, dir: Id, id: Id) { dir in seen && id in seen[dir] }

  /** The listing of a directory grows and takes no file from another one. */
  ghost predicate Grows(seen: Listed, dir: Id, files: seq<FileInfo>) {
    && (dir in seen ==> seen[dir] <= Ids(files))
    && (forall d, id :: d != dir && id in Ids(files) ==> !Seen(seen, d, id))
  }

  /** Listings hold distinct ids; a directory's listings only grow, and no
      file moves. */
  ghost predicate Legal(w: Dirs, e: Event) {
    match e
    case List(dir, files) =>
      DistinctIds(files) && Grows(w.seen, dir, files)
    case Remount => true
  }

  /** `load`. */
  function Load(text: Option<string>): Mapping {
    match text
    case Some(t) => Parse(t)
    case None => map[]
  }

  /** The file after a listing: rewritten only if some file was new. */
  ghost function Saved(m: Mapping, text: Option<string>, files: seq<FileInfo>): Option<string> {
    if Ids(files) <= m.Keys then text else Some(FormatOf(Resolve(m, files)))
  }

  ghost function Apply(w: Dirs, e: Event): Dirs {
    match e
    case List(dir, files) =>
      Dirs(Resolve(w.mapping, files), Saved(w.mapping, w.text, files), w.seen[dir := Ids(files)])
    case Remount => w.(mapping := Load(w.text))
  }

  ghost predicate IsRun(w: Dirs, es: seq<Event>)
    decreases |es|
  {
    es == [] || (Legal(w, es[0]) && IsRun(Apply(w, es[0]), es[1..]))
  }

  ghost function Run(w: Dirs, es: seq<Event>): Dirs
    decreases |es|
  {
    if es == [] then w else Run(Apply(w, es[0]), es[1..])
  }

  /** Whenever a remount comes, the file format can carry every name. */
  ghost predicate CleanRemounts(w: Dirs, es: seq<Event>)
    decreases |es|
  {
    es == [] || ((es[0].Remount? ==> CleanMap(w.mapping)) && CleanRemounts(Apply(w, es[0]), es[1..]))
  }

  const START := Dirs(map[], None, map[])

  /** Every id with a name was listed somewhere and every listed id has one,
      different from its neighbours'. */
  ghost predicate Tracked(m: Mapping, seen: Listed) {
    && (forall d, id :: Seen(seen, d, id) ==> id in m)
    && (forall id :: id in m ==> exists d :: Seen(seen, d, id))
    && (forall d :: d in seen ==> NamedApart(m, seen[d]) && SlashFree(m, seen[d]))
  }

  ghost predicate Inv(w: Dirs) {
    Tracked(w.mapping, w.seen) && (CleanMap(w.mapping) ==> Load(w.text) == w.mapping)
  }

  lemma ListApart(m: Mapping, seen: Listed, dir: Id, files: seq<FileInfo>)
    requires Tracked(m, seen) && Grows(seen, dir, files)
    ensures NamedApart(m, Ids(files)) && SlashFree(m, Ids(files))
  {
    forall id | id in Ids(files) && id in m ensures Seen(seen, dir, id) {
      var d :| Seen(seen, d, id);
    }
  }

  lemma ListTracked(m: Mapping, seen: Listed, dir: Id, files: seq<FileInfo>)
    requires Tracked(m, seen) && Grows(seen, dir, files)
    ensures Tracked(Resolve(m, files), seen[dir := Ids(files)])
  {
    var r, now := Resolve(m, files), seen[dir := Ids(files)];
    ListApart(m, seen, dir, files);
    AssignAllFacts(m, files, files);
    forall d, id | Seen(now, d, id) ensures id in r {
      assert d != dir ==> Seen(seen, d, id);
    }
    forall id | id in r ensures exists d :: Seen(now, d, id) {
      if id in Ids(files) {
        assert Seen(now, dir, id);
      } else {
        var d :| Seen(seen, d, id);
        assert Seen(now, d, id);
      }
    }
    forall d | d in now && d != dir ensures NamedApart(r, now[d]) && SlashFree(r, now[d]) {
      assert forall id :: id in now[d] ==> Seen(seen, d, id);
    }
  }

  lemma NothingNew(m: Mapping, r: Mapping, ids: set<Id>)
    requires r.Keys == m.Keys + ids && ids <= m.Keys && forall id :: id in m ==> r[id] == m[id]
    ensures r == m
  {
  }

  lemma StillClean(m: Mapping, r: Mapping)
    requires CleanMap(r) && forall id :: id in m ==> id in r && r[id] == m[id]
    ensures CleanMap(m)
  {
  }

  lemma ListSaved(m: Mapping, text: Option<string>, files: seq<FileInfo>)
    requires CleanMap(m) ==> Load(text) == m
    ensures CleanMap(Resolve(m, files)) ==> Load(Saved(m, text, files)) == Resolve(m, files)
  {
    AssignAllFacts(m, files, files);
    if CleanMap(Resolve(m, files)) {
      StillClean(m, Resolve(m, files));
      if Ids(files) <= m.Keys {
        NothingNew(m, Resolve(m, files), Ids(files));
      } else {
        RoundTrip(Resolve(m, files));
      }
    }
  }

  lemma ListStep(w: Dirs, e: Event)
    requires Inv(w) && Legal(w, e) && e.List?
    ensures Inv(Apply(w, e))
    ensures forall id :: id in w.mapping ==>
              id in Apply(w, e).mapping && Apply(w, e).mapping[id] == w.mapping[id]
  {
    ListTracked(w.mapping, w.seen, e.dir, e.files);
    ListSaved(w.mapping, w.text, e.files);
    AssignAllFacts(w.mapping, e.files, e.files);
  }

  lemma {:induction false} InvRun(w: Dirs, es: seq<Event>)
    requires Inv(w) && IsRun(w, es) && CleanRemounts(w, es)
    ensures Inv(Run(w, es))
    ensures forall id :: id in w.mapping ==> id in Run(w, es).mapping && Run(w, es).mapping[id] == w.mapping[id]
    decreases |es|
  {
    if es != [] {
      if es[0].List? {
        ListStep(w, es[0]);
      }
      InvRun(Apply(w, es[0]), es[1..]);
    }
  }

  /** Main result: in every run in which listings only grow and files do not
      move, each directory's files have pairwise different names without a
      slash, and no remount with clean names loses or changes one. */
  lemma NamesStayUnique(es: seq<Event>)
    requires IsRun(START, es) && CleanRemounts(START, es)
    ensures var w := Run(START, es);
            && (forall d, id :: Seen(w.seen, d, id) ==> id in w.mapping && '/' !in w.mapping[id])
            && (forall d, a, b :: Seen(w.seen, d, a) && Seen(w.seen, d, b) && a != b ==> w.mapping[a] != w.mapping[b])
            && (CleanMap(w.mapping) ==> Load(w.text) == w.mapping)
  {
    InvRun(START, es);
  }

  /** Main result: once a file has a name, every later listing and every later
      mount shows it under that name. */
  lemma NamesAreStable(es: seq<Event>, fs: seq<Event>, id: Id)
    requires IsRun(START, es) && CleanRemounts(START, es) && id in Run(START, es).mapping
    requires IsRun(Run(START, es), fs) && CleanRemounts(Run(START, es), fs)
    ensures id in Run(Run(START, es), fs).mapping
    ensures Run(Run(START, es), fs).mapping[id] == Run(START, es).mapping[id]
  {
    InvRun(START, es);
    InvRun(Run(START, es), fs);
  }

  /** Remounts are clean if every listing is, and when there are none. */
  lemma {:induction false} CleanListingsSuffice(w: Dirs, es: seq<Event>)
    requires IsRun(w, es) && Inv(w)
    requires || (CleanMap(w.mapping) && forall e :: e in es && e.List? ==> CleanListing(e.files))
             || Remount !in es
    ensures CleanRemounts(w, es)
    decreases |es|
  {
    if es != [] {
      assert es[0] in es && forall e :: e in es[1..] ==> e in es;
      if es[0].List? {
        ListStep(w, es[0]);
        AssignAllFacts(w.mapping, es[0].files, es[0].files);
      }
      CleanListingsSuffice(Apply(w, es[0]), es[1..]);
    }
  }

  // ── What the guards are for ──

  lemma Single(m: Mapping, f: FileInfo)
    requires f.id !in m
    ensures Resolve(m, [f]) == m[f.id := Base(f)]
  {
    assert [f][..0] == [];
    assert AssignAll(m, [f], []) == m;
    assert Taken(m, [f]) == {};
  }

  /** A directory that loses a file and regains it: two files that were never
      listed together keep their equal names when they are. */
  lemma ShrinkingListingClashes(f: FileInfo, g: FileInfo)
    requires f.id != g.id && Base(f) == Base(g)
    ensures var m := Resolve(Resolve(map[], [f]), [g]);
            var r := Resolve(m, [f, g]);
            f.id in r && g.id in r && r[f.id] == r[g.id] == Base(f)
  {
    Single(map[], f);
    Single(map[f.id := Base(f)], g);
    var m := Resolve(Resolve(map[], [f]), [g]);
    assert m == map[f.id := Base(f), g.id := Base(g)];
    ResolveUnique(m, [f, g]);
  }

  lemma TrimmedApart(m: Mapping, r: Mapping, ids: set<Id>)
    requires r == map id | id in m :: TrimEnd(m[id])
    ensures NamedApart(r, ids) <==>
            (forall a, b :: a in ids && b in ids && a in m && b in m && a != b ==> TrimEnd(m[a]) != TrimEnd(m[b]))
  {
  }

  /** Trailing white space is lost in the file, so a remount keeps two files
      apart exactly when their names differ in more than that. */
  lemma RemountKeepsApart(m: Mapping, ids: set<Id>)
    requires forall id :: id in m ==> CleanId(id) && Legible(m[id])
    ensures NamedApart(Parse(FormatOf(m)), ids) <==>
            (forall a, b :: a in ids && b in ids && a in m && b in m && a != b ==> TrimEnd(m[a]) != TrimEnd(m[b]))
  {
    ReadBackTrimmed(m);
    TrimmedApart(m, Parse(FormatOf(m)), ids);
  }

  lemma PairNamed(f: FileInfo, g: FileInfo)
    requires f.id != g.id && Base(f) != Base(g)
    ensures Resolve(map[], [f, g]) == map[f.id := Base(f), g.id := Base(g)]
  {
    var m := map[f.id := Base(f)];
    assert [f, g][..1] == [f] && [f][..0] == [];
    assert AssignAll(map[], [f, g], []) == map[];
    assert Taken(map[], [f, g]) == {};
    assert AssignAll(map[], [f, g], [f]) == m;
    assert f in [f, g];
    assert Taken(m, [f, g]) == {Base(f)};
  }

  lemma SpaceTrimmed(name: string)
    requires CleanName(name)
    ensures TrimEnd(name) == TrimEnd(name + " ") == name && Legible(name) && Legible(name + " ")
  {
    assert (name + " ")[..|name|] == name;
  }

  function TrimmedNames(m: Mapping): Mapping { map id | id in m :: TrimEnd(m[id]) }

  lemma PairTrimmed(m: Mapping, r: Mapping, a: Id, b: Id)
    requires m.Keys == {a, b} == r.Keys && CleanId(a) && CleanId(b) && Legible(m[a]) && Legible(m[b])
    requires r[a] == TrimEnd(m[a]) && r[b] == TrimEnd(m[b])
    ensures r == TrimmedNames(m) && forall id :: id in m ==> CleanId(id) && Legible(m[id])
  {
    forall id | id in m ensures CleanId(id) && Legible(m[id]) && id in r && r[id] == TrimEnd(m[id]) {
      assert id == a || id == b;
    }
  }

  lemma ReadBackAs(m: Mapping, r: Mapping)
    requires (forall id :: id in m ==> CleanId(id) && Legible(m[id])) && r == TrimmedNames(m)
    ensures Parse(FormatOf(m)) == r
  {
    ReadBackTrimmed(m);
  }

  lemma ListThenRemount(dir: Id, files: seq<FileInfo>)
    requires DistinctIds(files) && !(Ids(files) <= {})
    ensures IsRun(START, [List(dir, files), Remount])
    ensures Run(START, [List(dir, files), Remount]).mapping == Parse(FormatOf(Resolve(map[], files)))
  {
    var es := [List(dir, files), Remount];
    var w := Apply(START, es[0]);
    assert es[1..] == [Remount] && es[1..][1..] == [];
    assert Grows(START.seen, dir, files);
    assert w.text == Some(FormatOf(Resolve(map[], files)));
    assert IsRun(w, [Remount]) && Run(w, [Remount]) == Apply(w, Remount);
  }

  /** Such a case in one directory: a name and the same name with a space
      after it are different files until the next mount. */
  lemma TrailingSpaceClashes(dir: Id, f: FileInfo, g: FileInfo)
    requires f.id != g.id && CleanId(f.id) && CleanId(g.id) && CleanName(Base(f)) && Base(g) == Base(f) + " "
    ensures Resolve(map[], [f, g]) == map[f.id := Base(f), g.id := Base(g)]
    ensures IsRun(START, [List(dir, [f, g]), Remount])
    ensures Run(START, [List(dir, [f, g]), Remount]).mapping == map[f.id := Base(f), g.id := Base(f)]
  {
    assert f in [f, g] && f.id in Ids([f, g]);
    PairNamed(f, g);
    ListThenRemount(dir, [f, g]);
    SpaceTrimmed(Base(f));
    var m, r := map[f.id := Base(f), g.id := Base(g)], map[f.id := Base(f), g.id := Base(f)];
    PairTrimmed(m, r, f.id, g.id);
    ReadBackAs(m, r);
  }
}
