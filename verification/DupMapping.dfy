/** `DupMapping` as the code runs it. */
module DupMapping {
  import opened Basics
  import opened Names
  import opened Sorting
  import opened MappingFile
  import opened DupNames
  import opened DupRuns

  newtype u32 = n: int | 0 <= n < 0x1_0000_0000

  /** `read_file`. */
  method ReadFile(text: string) returns (m: Mapping)
    ensures m == Parse(text)
  {
    var lines := Lines(text);
    m := map[];
    for i := 0 to |lines|
      invariant ReadLines(m, lines[i..]) == Parse(text)
    {
      assert lines[i..][0] == lines[i] && lines[i..][1..] == lines[i + 1..];
      var line := Trim(lines[i]);
      if line == [] || line[0] == '#' {
        continue;
      }
      var tab := IndexOf(line, '\t');
      if tab < |line| {
        m := m[line[..tab] := line[tab + 1..]];
      }
    }
  }

  /** Collecting the entries of a hash map, in whatever order it has. */
  method Entries(m: Mapping) returns (entries: seq<Entry>)
    ensures EntriesOf(entries, m)
  {
    entries := [];
    var ids := m.Keys;
    while ids != {}
      invariant ids <= m.Keys
      invariant forall e :: e in entries <==> e.0 in m && e.0 !in ids && m[e.0] == e.1
      invariant forall i, j :: 0 <= i < j < |entries| ==> entries[i].0 != entries[j].0
      decreases ids
    {
      var id :| id in ids;
      assert forall e :: e in entries ==> e.0 != id;
      entries := entries + [(id, m[id])];
      ids := ids - {id};
    }
  }

  method WriteEntries(entries: seq<Entry>) returns (text: string)
    ensures text == Format(entries)
  {
    var sorted := Sort(entries, ById);
    text := TITLE + "\n" + (COLUMNS + "\n");
    for i := 0 to |sorted|
      invariant text + Body(sorted[i..]) == Format(entries)
    {
      assert sorted[i..][0] == sorted[i] && sorted[i..][1..] == sorted[i + 1..];
      text := text + (sorted[i].0 + "\t" + sorted[i].1 + "\n");
    }
    assert text + [] == text;
  }

  /** `write_file`. */
  method WriteFile(m: Mapping) returns (text: string)
    ensures text == FormatOf(m)
  {
    var entries := Entries(m);
    FormatDependsOnMap(entries, m);
    text := WriteEntries(entries);
  }

  lemma TakenGrows(m: Mapping, files: seq<FileInfo>, f: FileInfo, name: string)
    requires f in files && f.id !in m
    ensures Taken(m[f.id := name], files) == Taken(m, files) + {name}
  {
    var r := m[f.id := name];
    assert f.id in r && r[f.id] == name;
  }

  /** The free number reached from below is the one the specification picks. */
  lemma FirstFreeIs(base: string, taken: set<string>, n: nat)
    requires base in taken && 1 <= n && SuffixName(base, n) !in taken
    requires forall k :: 1 <= k < n ==> SuffixName(base, k) in taken
    ensures FirstFree(base, taken, 1) == n
  {
  }

  class DupMapping {
    var inner: Mapping
    var text: Option<string>

    constructor (text: Option<string>)
      ensures inner == Load(text) && this.text == text
    {
      var m: Mapping := map[];
      if text.Some? {
        m := ReadFile(text.value);
      }
      this.inner := m;
      this.text := text;
    }

    /** The names in use among the listed files. */
    method TakenNames(files: seq<FileInfo>) returns (taken: set<string>)
      ensures taken == Taken(inner, files)
    {
      taken := {};
      var ids := inner.Keys;
      while ids != {}
        invariant ids <= inner.Keys
        invariant taken == set f | f in files && f.id in inner && f.id !in ids :: inner[f.id]
        decreases ids
      {
        var id :| id in ids;
        ghost var before := ids;
        if exists i :: 0 <= i < |files| && files[i].id == id {
          taken := taken + {inner[id]};
        }
        ids := ids - {id};
        assert forall f :: f in files && f.id in inner && f.id !in ids ==> f.id !in before || f.id == id;
      }
    }

    /** The suffix search; the counter stays within 32 bits because there are
        fewer taken names than that. */
    static method FreeName(base: string, taken: set<string>) returns (unique: string)
      requires |taken| < 0x1_0000_0000
      ensures unique == Pick(base, taken)
    {
      if base !in taken {
        return base;
      }
      var n: u32 := 1;
      while SuffixName(base, n as nat) in taken
        invariant 1 <= n as nat <= |taken|
        invariant forall k :: 1 <= k < n as nat ==> SuffixName(base, k) in taken
        decreases |taken| - n as nat
      {
        SearchBound(base, taken, n as nat);
        n := n + 1;
      }
      FirstFreeIs(base, taken, n as nat);
      unique := SuffixName(base, n as nat);
    }

    /** The body of the loop in `resolve`: the name of one listed file. */
    method ResolveOne(files: seq<FileInfo>, i: nat, taken: set<string>) returns (name: string, taken': set<string>)
      requires i < |files| < 0x1_0000_0000 && taken == Taken(inner, files)
      modifies this`inner
      ensures inner == Assign(old(inner), files, files[i])
      ensures files[i].id in inner && name == inner[files[i].id]
      ensures taken' == Taken(inner, files)
    {
      var f := files[i];
      if f.id in inner {
        return inner[f.id], taken;
      }
      TakenRoom(inner, files, i);
      name := FreeName(DisplayName(f.name, f.mime), taken);
      TakenGrows(inner, files, f, name);
      taken' := taken + {name};
      inner := inner[f.id := name];
    }

    /** `resolve`; `saves` says whether the file can be written. */
    method Resolve(files: seq<FileInfo>, saves: bool) returns (result: seq<(string, FileInfo)>)
      requires |files| < 0x1_0000_0000
      modifies this
      ensures inner == DupNames.Resolve(old(inner), files)
      ensures text == if saves then Saved(old(inner), old(text), files) else old(text)
      ensures |result| == |files|
      ensures forall i :: 0 <= i < |files| ==>
                files[i].id in inner && result[i] == (inner[files[i].id], files[i])
    {
      ghost var m := inner;
      var taken := TakenNames(files);
      result := [];
      var changed := false;
      for i := 0 to |files|
        invariant inner == AssignAll(m, files, files[..i])
        invariant text == old(text)
        invariant taken == Taken(inner, files)
        invariant |result| == i
        invariant forall j :: 0 <= j < i ==> files[j].id in inner && result[j] == (inner[files[j].id], files[j])
        invariant m.Keys <= inner.Keys && (changed <==> inner.Keys != m.Keys)
      {
        assert files[..i + 1][..i] == files[..i];
        changed := changed || files[i].id !in inner;
        var name;
        name, taken := ResolveOne(files, i, taken);
        result := result + [(name, files[i])];
      }
      assert files[..|files|] == files;
      AssignAllFacts(m, files, files);
      if changed && saves {
        var written := WriteFile(inner);
        text := Some(written);
      }
    }
  }
}
