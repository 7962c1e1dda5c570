/** How `dup_mapping.rs` gives the files of one directory listing pairwise
    different names, and for which runs of listings the names stay different. */
module DupNames {
  import opened Basics
  import opened Names
  import opened MappingFile

  // ── Candidate names ──

  const DIVISION_SLASH: char := '\U{2215}'

  function WithoutSlash(name: string): (r: string)
    ensures |r| == |name|
    ensures forall i :: 0 <= i < |name| ==> r[i] == if name[i] == '/' then DIVISION_SLASH else name[i]
  {
    seq(|name|, i requires 0 <= i < |name| => if name[i] == '/' then DIVISION_SLASH else name[i])
  }

  function DisplayName(name: string, mime: string): string {
    WithoutSlash(name) + if IsWorkspace(mime) then ".desktop" else ""
  }

  /** A child is found by the name that a listing shows for it, unless that name
      has a slash: the index keeps the slash, the listing shows another
      character. */
  lemma FoundByShownName(parent: Id, f: FileInfo)
    ensures NameKey(parent, f.name, f.mime) == parent + ":" + DisplayName(f.name, f.mime) <==> '/' !in f.name
    ensures '/' !in f.name ==>
              DisplayName(f.name, f.mime) ==
              f.name + if "application/vnd.google-apps." <= f.mime && f.mime != "application/vnd.google-apps.folder"
                       then ".desktop" else ""
  {
    var key, shown := NameKey(parent, f.name, f.mime), parent + ":" + DisplayName(f.name, f.mime);
    if '/' in f.name {
      var i :| 0 <= i < |f.name| && f.name[i] == '/';
      assert key[|parent| + 1 + i] == '/' && shown[|parent| + 1 + i] == DIVISION_SLASH;
    } else {
      assert WithoutSlash(f.name) == f.name;
    }
  }

  function Base(f: FileInfo): string { DisplayName(f.name, f.mime) }

  /** The position of the last '.', or the length. */
  function ExtensionStart(name: string): (i: nat)
    ensures i <= |name|
    ensures i < |name| ==> name[i] == '.' && '.' !in name[i + 1..]
    ensures i == |name| ==> '.' !in name
  {
    if name == [] then 0
    else if name[|name| - 1] == '.' then |name| - 1
    else
      var i := ExtensionStart(name[..|name| - 1]);
      assert name == name[..|name| - 1] + [name[|name| - 1]];
      assert i < |name| - 1 ==> name[i + 1..] == name[..|name| - 1][i + 1..] + [name[|name| - 1]];
      if i == |name| - 1 then |name| else i
  }

  /** `suffix_name`: " (n)" goes before the extension, or to the end. */
  function SuffixName(name: string, n: nat): string {
    var i := ExtensionStart(name);
    name[..i] + " (" + Decimal(n) + ")" + name[i..]
  }

  lemma ExtensionIs(name: string, i: nat)
    requires i < |name| && name[i] == '.' && '.' !in name[i + 1..]
    ensures ExtensionStart(name) == i
  {
    var start := ExtensionStart(name);
    assert forall j :: start < j < |name| ==> name[j] in name[start + 1..];
    assert forall j :: i < j < |name| ==> name[j] in name[i + 1..];
  }

  /** The number goes before the last dot, so the extension stays; a name without
      a dot gets it at its end. */
  lemma SuffixKeepsExtension(stem: string, extension: string, n: nat)
    requires '.' !in extension
    ensures SuffixName(stem + "." + extension, n) == stem + " (" + Decimal(n) + ")." + extension
    ensures SuffixName(extension, n) == extension + " (" + Decimal(n) + ")"
  {
    var name := stem + "." + extension;
    assert name[|stem| + 1..] == extension;
    ExtensionIs(name, |stem|);
    assert name[..|stem|] == stem && name[|stem|..] == "." + extension;
    assert ")" + ("." + extension) == ")." + extension;
    assert ExtensionStart(extension) == |extension|;
  }

  /** Different numbers give different names, none of them the base. */
  lemma SuffixInjective(name: string, m: nat, n: nat)
    ensures SuffixName(name, m) != name
    ensures SuffixName(name, m) == SuffixName(name, n) <==> m == n
  {
    var i := ExtensionStart(name);
    var a, b := SuffixName(name, m), SuffixName(name, n);
    assert |a| == |name| + 3 + |Decimal(m)| && |b| == |name| + 3 + |Decimal(n)|;
    assert a[i + 2..|a| - 1 - (|name| - i)] == Decimal(m);
    assert b[i + 2..|b| - 1 - (|name| - i)] == Decimal(n);
    if a == b {
      DecimalInjective(m, n);
    }
  }

  // ── The suffix search ──

  /** The names tried up to `n`. */
  function Tried(base: string, n: nat): (r: set<string>)
    ensures forall s :: s in r <==> s == base || exists k :: 1 <= k <= n && s == SuffixName(base, k)
  {
    if n == 0 then {base} else Tried(base, n - 1) + {SuffixName(base, n)}
  }

  lemma {:induction false} TriedCount(base: string, n: nat)
    ensures |Tried(base, n)| == n + 1
  {
    if n > 0 {
      TriedCount(base, n - 1);
      SuffixInjective(base, n, n);
      forall k: nat | k < n ensures SuffixName(base, k) != SuffixName(base, n) {
        SuffixInjective(base, k, n);
      }
    }
  }

  lemma {:induction false} SubsetCount<T>(a: set<T>, b: set<T>)
    requires a <= b
    ensures |a| <= |b|
  {
    if x :| x in a {
      SubsetCount(a - {x}, b - {x});
    }
  }

  /** The pigeonhole bound: while every candidate up to `n` is taken, there are
      more taken names than `n`. */
  lemma SearchBound(base: string, taken: set<string>, n: nat)
    requires base in taken && forall k :: 1 <= k <= n ==> SuffixName(base, k) in taken
    ensures n < |taken|
  {
    TriedCount(base, n);
    SubsetCount(Tried(base, n), taken);
  }

  /** The first free suffix number from `n` on. */
  function FirstFree(base: string, taken: set<string>, n: nat): (r: nat)
    requires 1 <= n && base in taken && forall k :: 1 <= k < n ==> SuffixName(base, k) in taken
    ensures n <= r <= |taken| && SuffixName(base, r) !in taken
    ensures forall k :: 1 <= k < r ==> SuffixName(base, k) in taken
    decreases |taken| - n + 1
  {
    SearchBound(base, taken, n - 1);
    if SuffixName(base, n) !in taken then n else
      SearchBound(base, taken, n);
      FirstFree(base, taken, n + 1)
  }

  ghost predicate AllTaken(base: string, taken: set<string>, n: nat) {
    forall k :: 1 <= k < n ==> SuffixName(base, k) in taken
  }

  /** The base with the first number whose name is not in use. */
  ghost predicate IsFirstSuffix(base: string, taken: set<string>, name: string) {
    exists n: nat :: 1 <= n <= |taken| && name == SuffixName(base, n) && AllTaken(base, taken, n)
  }

  /** The name a new file gets. */
  function Pick(base: string, taken: set<string>): (name: string)
    ensures name !in taken
    ensures name == base <==> base !in taken
    ensures base in taken ==> IsFirstSuffix(base, taken, name)
  {
    if base !in taken then base
    else
      var n := FirstFree(base, taken, 1);
      SuffixInjective(base, n, n);
      assert AllTaken(base, taken, n);
      SuffixName(base, n)
  }

  // ── Resolving one listing ──

  type Mapping = map<Id, string>

  /** The names in use among the files of a listing. */
  ghost function Taken(m: Mapping, files: seq<FileInfo>): set<string> {
    set f | f in files && f.id in m :: m[f.id]
  }

  lemma {:induction false} TakenCount(m: Mapping, files: seq<FileInfo>)
    ensures |Taken(m, files)| <= |files|
    decreases |files|
  {
    if files != [] {
      var f, rest := files[0], files[1..];
      assert files == [f] + rest;
      TakenCount(m, rest);
      assert Taken(m, files) == Taken(m, rest) + if f.id in m then {m[f.id]} else {};
    }
  }

  /** A file without a name leaves room for one more. */
  lemma TakenRoom(m: Mapping, files: seq<FileInfo>, i: nat)
    requires i < |files| && files[i].id !in m
    ensures |Taken(m, files)| < |files|
  {
    var others := files[..i] + files[i + 1..];
    TakenCount(m, others);
    forall f | f in files && f.id in m ensures f in others {
      var j :| 0 <= j < |files| && files[j] == f;
      assert f == if j < i then others[j] else others[j - 1];
    }
    assert Taken(m, files) == Taken(m, others);
  }

  ghost function Assign(m: Mapping, files: seq<FileInfo>, f: FileInfo): Mapping {
    if f.id in m then m else m[f.id := Pick(Base(f), Taken(m, files))]
  }

  ghost function AssignAll(m: Mapping, files: seq<FileInfo>, todo: seq<FileInfo>): Mapping {
    if todo == [] then m
    else Assign(AssignAll(m, files, todo[..|todo| - 1]), files, todo[|todo| - 1])
  }

  /** The mapping after `resolve`. */
  ghost function Resolve(m: Mapping, files: seq<FileInfo>): Mapping { AssignAll(m, files, files) }

  ghost function Ids(files: seq<FileInfo>): set<Id> { set f | f in files :: f.id }

  ghost predicate DistinctIds(files: seq<FileInfo>) {
    forall i, j :: 0 <= i < j < |files| ==> files[i].id != files[j].id
  }

  /** Every two of these ids that have a name have different names. */
  ghost predicate NamedApart(m: Mapping, ids: set<Id>) {
    forall a, b :: a in ids && b in ids && a in m && b in m && a != b ==> m[a] != m[b]
  }

  ghost predicate SlashFree(m: Mapping, ids: set<Id>) {
    forall id :: id in ids && id in m ==> '/' !in m[id]
  }

  ghost predicate CleanListing(files: seq<FileInfo>) {
    forall f :: f in files ==> CleanId(f.id) && CleanName(Base(f))
  }

  lemma PickedName(base: string, taken: set<string>)
    ensures '/' in base <==> '/' in Pick(base, taken)
    ensures CleanName(base) ==> CleanName(Pick(base, taken))
  {
    if base in taken {
      var n := FirstFree(base, taken, 1);
      var i := ExtensionStart(base);
      assert Pick(base, taken) == SuffixName(base, n) == base[..i] + " (" + Decimal(n) + ")" + base[i..];
      assert base == base[..i] + base[i..];
      assert i < |base| ==> base[i..][|base| - i - 1] == base[|base| - 1];
    }
  }

  lemma BaseSlashFree(f: FileInfo)
    ensures '/' !in Base(f)
  {
  }

  lemma AssignOne(s: Mapping, files: seq<FileInfo>, f: FileInfo)
    requires f in files && f.id !in s
    ensures var r := Assign(s, files, f);
            && (NamedApart(s, Ids(files)) ==> NamedApart(r, Ids(files)))
            && (SlashFree(s, Ids(files)) ==> SlashFree(r, Ids(files)))
            && (CleanMap(s) && CleanListing(files) ==> CleanMap(r))
  {
    var taken := Taken(s, files);
    var name := Pick(Base(f), taken);
    PickedName(Base(f), taken);
    BaseSlashFree(f);
    forall id | id in Ids(files) && id in s ensures s[id] in taken {
      var g :| g in files && g.id == id;
    }
  }

  lemma {:induction false} AssignAllFacts(m: Mapping, files: seq<FileInfo>, todo: seq<FileInfo>)
    requires forall f :: f in todo ==> f in files
    ensures var r := AssignAll(m, files, todo);
            && r.Keys == m.Keys + Ids(todo)
            && (forall id :: id in m ==> r[id] == m[id])
            && (NamedApart(m, Ids(files)) ==> NamedApart(r, Ids(files)))
            && (SlashFree(m, Ids(files)) ==> SlashFree(r, Ids(files)))
            && (CleanMap(m) && CleanListing(files) ==> CleanMap(r))
    decreases |todo|
  {
    if todo != [] {
      var init, f := todo[..|todo| - 1], todo[|todo| - 1];
      assert todo == init + [f];
      AssignAllFacts(m, files, init);
      var s := AssignAll(m, files, init);
      assert Ids(todo) == Ids(init) + {f.id};
      if f.id !in s {
        AssignOne(s, files, f);
      }
    }
  }

  ghost function NamesOf(m: Mapping, files: seq<FileInfo>): seq<string>
    requires forall f :: f in files ==> f.id in m
  {
    seq(|files|, i requires 0 <= i < |files| => m[files[i].id])
  }

  ghost predicate Distinct(names: seq<string>) {
    forall i, j :: 0 <= i < j < |names| ==> names[i] != names[j]
  }

  lemma NamesApart(m: Mapping, files: seq<FileInfo>, i: nat, j: nat)
    requires (forall f :: f in files ==> f.id in m) && Distinct(NamesOf(m, files))
    requires i < |files| && j < |files| && files[i].id != files[j].id
    ensures m[files[i].id] != m[files[j].id]
  {
    var names := NamesOf(m, files);
    assert names[i] == m[files[i].id] && names[j] == m[files[j].id];
    assert i < j || j < i;
  }

  lemma DistinctNames(m: Mapping, files: seq<FileInfo>)
    requires forall f :: f in files ==> f.id in m
    ensures Distinct(NamesOf(m, files)) <==> DistinctIds(files) && NamedApart(m, Ids(files))
  {
    var names := NamesOf(m, files);
    if DistinctIds(files) && NamedApart(m, Ids(files)) {
      forall i, j | 0 <= i < j < |names| ensures names[i] != names[j] {
        assert files[i].id in Ids(files) && files[j].id in Ids(files);
      }
    }
    if Distinct(names) {
      forall i, j | 0 <= i < j < |files| ensures files[i].id != files[j].id {
        assert names[i] != names[j];
      }
      forall a, b | a in Ids(files) && b in Ids(files) && a != b ensures m[a] != m[b] {
        var i :| 0 <= i < |files| && files[i].id == a;
        var j :| 0 <= j < |files| && files[j].id == b;
        NamesApart(m, files, i, j);
      }
    }
  }

  /** Main result: a listing comes back with pairwise different names exactly
      when its ids are distinct and no two stored names of listed files
      clash; stored names are kept and only listed files are added. */
  lemma ResolveUnique(m: Mapping, files: seq<FileInfo>)
    ensures var r := Resolve(m, files);
            && r.Keys == m.Keys + Ids(files)
            && (forall id :: id in m ==> r[id] == m[id])
            && (Distinct(NamesOf(r, files)) <==> DistinctIds(files) && NamedApart(m, Ids(files)))
            && (NamedApart(r, Ids(files)) <==> NamedApart(m, Ids(files)))
  {
    AssignAllFacts(m, files, files);
    DistinctNames(Resolve(m, files), files);
  }

  /** The names returned can be shown in a directory exactly when no stored
      name of a listed file has a slash. */
  lemma ResolveSlashFree(m: Mapping, files: seq<FileInfo>)
    ensures SlashFree(Resolve(m, files), Ids(files)) <==> SlashFree(m, Ids(files))
  {
    AssignAllFacts(m, files, files);
  }

  lemma {:induction false} AssignedStays(m: Mapping, files: seq<FileInfo>, i: nat)
    requires i <= |files|
    ensures forall id :: id in AssignAll(m, files, files[..i]) ==>
              id in Resolve(m, files) && Resolve(m, files)[id] == AssignAll(m, files, files[..i])[id]
    decreases |files| - i
  {
    if i < |files| {
      AssignedStays(m, files, i + 1);
      assert files[..i + 1][..i] == files[..i];
    } else {
      assert files[..i] == files;
    }
  }

  /** A file's first name is its own display name exactly when that is not in
      use in the listing at its turn, and otherwise the first free suffix of
      it. */
  lemma NewcomerName(m: Mapping, files: seq<FileInfo>, i: nat)
    requires i < |files| && files[i].id !in AssignAll(m, files, files[..i])
    ensures files[i].id in Resolve(m, files)
    ensures var before := AssignAll(m, files, files[..i]);
            var name, taken := Resolve(m, files)[files[i].id], Taken(before, files);
            && (name == Base(files[i]) <==> Base(files[i]) !in taken)
            && (Base(files[i]) in taken ==> IsFirstSuffix(Base(files[i]), taken, name))
  {
    assert files[..i + 1][..i] == files[..i];
    AssignAllFacts(m, files, files);
    AssignedStays(m, files, i + 1);
  }
}
