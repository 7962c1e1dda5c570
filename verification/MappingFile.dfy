/** The text format in which duplicate-name assignments are persisted. */
module MappingFile {
  import opened Basics
  import opened Sorting

  type Entry = (string, string)

  // ── Reading ──

  /** Unicode `White_Space`, which `str::trim` strips. */
  predicate IsWhitespace(c: char) {
    || '\t' <= c <= '\r' || c == ' ' || c == '\U{0085}' || c == '\U{00A0}' || c == '\U{1680}'
    || '\U{2000}' <= c <= '\U{200A}' || c == '\U{2028}' || c == '\U{2029}' || c == '\U{202F}'
    || c == '\U{205F}' || c == '\U{3000}'
  }

  /** The first position of a character, or the length. */
  function IndexOf(s: string, c: char): (i: nat)
    ensures i <= |s|
    ensures i < |s| ==> s[i] == c
    ensures forall j :: 0 <= j < i ==> s[j] != c
  {
    if s == [] || s[0] == c then 0 else 1 + IndexOf(s[1..], c)
  }

  function StripCr(s: string): string {
    if s != [] && s[|s| - 1] == '\r' then s[..|s| - 1] else s
  }

  /** `BufRead::lines`. */
  function Lines(text: string): seq<string>
    decreases |text|
  {
    if text == [] then []
    else
      var i := IndexOf(text, '\n');
      if i == |text| then [text] else [StripCr(text[..i])] + Lines(text[i + 1..])
  }

  function TrimStart(s: string): string {
    if s != [] && IsWhitespace(s[0]) then TrimStart(s[1..]) else s
  }

  function TrimEnd(s: string): string {
    if s != [] && IsWhitespace(s[|s| - 1]) then TrimEnd(s[..|s| - 1]) else s
  }

  function Trim(s: string): string { TrimEnd(TrimStart(s)) }

  /** One line of the reader's loop: blank lines, comments and lines without a
      tab leave the map alone, anything else sets an entry. */
  function ReadLine(m: map<string, string>, raw: string): map<string, string> {
    var line := Trim(raw);
    if line == [] || line[0] == '#' then m
    else
      var i := IndexOf(line, '\t');
      if i == |line| then m else m[line[..i] := line[i + 1..]]
  }

  function ReadLines(m: map<string, string>, lines: seq<string>): map<string, string>
    decreases |lines|
  {
    if lines == [] then m else ReadLines(ReadLine(m, lines[0]), lines[1..])
  }

  /** `read_file` on the file's text. */
  function Parse(text: string): map<string, string> { ReadLines(map[], Lines(text)) }

  // ── Writing ──

  const TITLE: string := "# gdrive-fuse duplicate name mapping"
  const COLUMNS: string := "# file_id<TAB>unique_display_name"

  /** String order, character by character. */
  predicate LexLeq(a: string, b: string) {
    a == [] || (b != [] && (a[0] < b[0] || (a[0] == b[0] && LexLeq(a[1..], b[1..]))))
  }

  predicate ById(x: Entry, y: Entry) { LexLeq(x.0, y.0) }

  function WriteEntry(e: Entry): string { e.0 + "\t" + e.1 + "\n" }

  function Body(entries: seq<Entry>): string {
    if entries == [] then [] else WriteEntry(entries[0]) + Body(entries[1..])
  }

  /** `write_file`: the text written for the entries in some iteration order. */
  function Format(entries: seq<Entry>): string {
    TITLE + "\n" + (COLUMNS + "\n" + Body(Sort(entries, ById)))
  }

  /** The entries of a map in some iteration order. */
  ghost predicate EntriesOf(entries: seq<Entry>, m: map<string, string>) {
    && (forall e :: e in entries <==> e.0 in m && m[e.0] == e.1)
    && (forall i, j :: 0 <= i < j < |entries| ==> entries[i].0 != entries[j].0)
  }

  /** Some iteration order of a map. */
  ghost function SomeOrder(m: map<string, string>): (entries: seq<Entry>)
    ensures EntriesOf(entries, m)
  {
    if m == map[] then []
    else
      var id :| id in m;
      SomeOrder(m - {id}) + [(id, m[id])]
  }

  /** The text a map is saved as, whatever its iteration order. */
  ghost function FormatOf(m: map<string, string>): string { Format(SomeOrder(m)) }

  // ── The output depends on the map alone ──

  lemma {:induction false} LexTotal(a: string, b: string)
    ensures LexLeq(a, b) || LexLeq(b, a)
    ensures LexLeq(a, b) && LexLeq(b, a) ==> a == b
  {
    if a != [] && b != [] && a[0] == b[0] {
      LexTotal(a[1..], b[1..]);
      assert a == [a[0]] + a[1..] && b == [b[0]] + b[1..];
    }
  }

  lemma {:induction false} LexTransitive(a: string, b: string, c: string)
    requires LexLeq(a, b) && LexLeq(b, c)
    ensures LexLeq(a, c)
  {
    if a != [] && a[0] == b[0] == c[0] {
      LexTransitive(a[1..], b[1..], c[1..]);
    }
  }

  lemma ByIdTotal()
    ensures TotalOrder(ById)
  {
    forall x: Entry, y: Entry ensures ById(x, y) || ById(y, x) {
      LexTotal(x.0, y.0);
    }
    forall x: Entry, y: Entry, z: Entry | ById(x, y) && ById(y, z) ensures ById(x, z) {
      LexTransitive(x.0, y.0, z.0);
    }
  }

  /** Two sorted lists of the same entries start alike. */
  lemma SortedHead(a: seq<Entry>, b: seq<Entry>)
    requires Sorted(a, ById) && Sorted(b, ById) && a != [] && b != []
    requires a[0] in b && b[0] in a
    ensures a[0].0 == b[0].0
  {
    LexTotal(a[0].0, a[0].0);
    assert ById(a[0], b[0]) && ById(b[0], a[0]);
    LexTotal(a[0].0, b[0].0);
  }

  lemma SameEntries(a: seq<Entry>, b: seq<Entry>)
    requires multiset(a) == multiset(b)
    ensures |a| == |b| && forall x :: x in a <==> x in b
  {
    assert |multiset(a)| == |a| && |multiset(b)| == |b|;
    assert forall x :: x in a <==> x in multiset(a);
    assert forall x :: x in b <==> x in multiset(b);
  }

  lemma SameTail(a: seq<Entry>, b: seq<Entry>)
    requires multiset(a) == multiset(b) && a != [] && b != [] && a[0] == b[0]
    ensures multiset(a[1..]) == multiset(b[1..])
  {
    assert a == [a[0]] + a[1..] && b == [b[0]] + b[1..];
    assert multiset(a[1..]) == multiset(a) - multiset{a[0]};
    assert multiset(b[1..]) == multiset(b) - multiset{b[0]};
  }

  /** Two sorted lists of the same entries are the same list. */
  lemma {:induction false} SortedUnique(a: seq<Entry>, b: seq<Entry>)
    requires Sorted(a, ById) && Sorted(b, ById) && multiset(a) == multiset(b)
    requires forall x, y :: x in a && y in a && x.0 == y.0 ==> x == y
    ensures a == b
    decreases |a|
  {
    SameEntries(a, b);
    if a != [] {
      SortedHead(a, b);
      SameTail(a, b);
      SortedUnique(a[1..], b[1..]);
      assert a == [a[0]] + a[1..] && b == [b[0]] + b[1..];
    }
  }

  /** Main result: whatever order the hash map is iterated in, the same map is
      written as the same text. */
  lemma FormatDependsOnMap(a: seq<Entry>, m: map<string, string>)
    requires EntriesOf(a, m)
    ensures Format(a) == FormatOf(m)
  {
    var b := SomeOrder(m);
    forall e ensures multiset(a)[e] == multiset(b)[e] {
      DistinctMultiset(a, e);
      DistinctMultiset(b, e);
    }
    assert multiset(a) == multiset(b);
    ByIdTotal();
    SortSorted(a, ById);
    SortSorted(b, ById);
    SortMultiset(a, ById);
    SortMultiset(b, ById);
    SortedUnique(Sort(a, ById), Sort(b, ById));
  }

  // ── Round trip ──

  predicate CleanId(id: string) {
    id != [] && '\t' !in id && '\n' !in id && id[0] != '#' && !IsWhitespace(id[0])
  }

  predicate CleanName(name: string) {
    name != [] && '\n' !in name && !IsWhitespace(name[|name| - 1])
  }

  /** A name that the reader does not drop, though it may shorten it. */
  predicate Legible(name: string) { '\n' !in name && TrimEnd(name) != [] }

  ghost predicate CleanMap(m: map<string, string>) {
    forall id :: id in m ==> CleanId(id) && CleanName(m[id])
  }

  lemma {:induction false} TrimStartFacts(s: string)
    ensures |TrimStart(s)| <= |s| && TrimStart(s) == s[|s| - |TrimStart(s)|..]
    ensures TrimStart(s) != [] ==> !IsWhitespace(TrimStart(s)[0])
    decreases |s|
  {
    if s != [] && IsWhitespace(s[0]) {
      TrimStartFacts(s[1..]);
    }
  }

  lemma {:induction false} TrimEndFacts(s: string)
    ensures |TrimEnd(s)| <= |s| && TrimEnd(s) == s[..|TrimEnd(s)|]
    ensures TrimEnd(s) != [] ==> !IsWhitespace(TrimEnd(s)[|TrimEnd(s)| - 1])
    decreases |s|
  {
    if s != [] && IsWhitespace(s[|s| - 1]) {
      TrimEndFacts(s[..|s| - 1]);
    }
  }

  lemma TrimFacts(s: string)
    ensures var t := Trim(s);
            && (t != [] ==> !IsWhitespace(t[0]) && !IsWhitespace(t[|t| - 1]))
            && (forall c :: c in t ==> c in s)
  {
    TrimStartFacts(s);
    TrimEndFacts(TrimStart(s));
  }

  /** Any line the reader accepts yields a clean entry. */
  lemma ReadLineClean(m: map<string, string>, raw: string)
    requires CleanMap(m) && '\n' !in raw
    ensures CleanMap(ReadLine(m, raw))
  {
    var line := Trim(raw);
    TrimFacts(raw);
    if line != [] && line[0] != '#' {
      var i := IndexOf(line, '\t');
      if i < |line| {
        assert IsWhitespace('\t') && i > 0 && i < |line| - 1;
        assert forall c :: c in line[..i] ==> c in line;
        assert forall c :: c in line[i + 1..] ==> c in line;
        assert line[..i][0] == line[0] && line[i + 1..][|line| - i - 2] == line[|line| - 1];
      }
    }
  }

  lemma {:induction false} ReadLinesClean(m: map<string, string>, lines: seq<string>)
    requires CleanMap(m) && forall l :: l in lines ==> '\n' !in l
    ensures CleanMap(ReadLines(m, lines))
    decreases |lines|
  {
    if lines != [] {
      assert lines[0] in lines;
      ReadLineClean(m, lines[0]);
      ReadLinesClean(ReadLine(m, lines[0]), lines[1..]);
    }
  }

  lemma {:induction false} LinesHaveNoNewline(text: string)
    ensures forall l :: l in Lines(text) ==> '\n' !in l
    decreases |text|
  {
    if text != [] {
      var i := IndexOf(text, '\n');
      if i < |text| {
        LinesHaveNoNewline(text[i + 1..]);
        assert forall c :: c in StripCr(text[..i]) ==> c in text[..i];
      }
    }
  }

  /** Whatever text is read, only clean entries come out. */
  lemma ParseClean(text: string)
    ensures CleanMap(Parse(text))
  {
    LinesHaveNoNewline(text);
    ReadLinesClean(map[], Lines(text));
  }

  lemma LineOff(line: string, rest: string)
    requires '\n' !in line
    ensures Lines(line + "\n" + rest) == [StripCr(line)] + Lines(rest)
  {
    var text := line + "\n" + rest;
    var i := IndexOf(text, '\n');
    assert text[|line|] == '\n';
    assert forall k :: 0 <= k < |line| ==> text[k] == line[k] && line[k] in line;
    assert i == |line|;
    assert text[..i] == line && text[i + 1..] == rest;
  }

  lemma {:induction false} TrimEndAppend(a: string, s: string)
    requires TrimEnd(s) != []
    ensures TrimEnd(a + s) == a + TrimEnd(s)
    decreases |s|
  {
    if s != [] && IsWhitespace(s[|s| - 1]) {
      TrimEndAppend(a, s[..|s| - 1]);
      assert (a + s)[..|a + s| - 1] == a + s[..|s| - 1];
    }
  }

  lemma TrimEndStripCr(s: string)
    ensures TrimEnd(StripCr(s)) == TrimEnd(s)
  {
    assert IsWhitespace('\r');
  }

  /** An entry's line is read back with the name's trailing white space gone. */
  lemma EntryReadsBack(m: map<string, string>, e: Entry)
    requires CleanId(e.0) && Legible(e.1)
    ensures ReadLine(m, StripCr(e.0 + "\t" + e.1)) == m[e.0 := TrimEnd(e.1)]
  {
    var raw := e.0 + "\t" + e.1;
    var line := e.0 + "\t" + TrimEnd(e.1);
    assert StripCr(raw)[0] == e.0[0];
    assert TrimStart(StripCr(raw)) == StripCr(raw);
    TrimEndStripCr(raw);
    TrimEndAppend(e.0 + "\t", e.1);
    assert Trim(StripCr(raw)) == line;
    var i := IndexOf(line, '\t');
    assert line[|e.0|] == '\t';
    assert forall k :: 0 <= k < |e.0| ==> line[k] == e.0[k] && e.0[k] in e.0;
    assert i == |e.0|;
    assert line[..i] == e.0 && line[i + 1..] == TrimEnd(e.1);
  }

  function WithEntries(m: map<string, string>, entries: seq<Entry>): map<string, string>
    decreases |entries|
  {
    if entries == [] then m else WithEntries(m[entries[0].0 := entries[0].1], entries[1..])
  }

  function Trimmed(entries: seq<Entry>): (r: seq<Entry>)
    ensures |r| == |entries|
    ensures forall i :: 0 <= i < |r| ==> r[i] == (entries[i].0, TrimEnd(entries[i].1))
  {
    seq(|entries|, i requires 0 <= i < |entries| => (entries[i].0, TrimEnd(entries[i].1)))
  }

  lemma {:induction false} BodyReadsBack(m: map<string, string>, entries: seq<Entry>)
    requires forall e :: e in entries ==> CleanId(e.0) && Legible(e.1)
    ensures ReadLines(m, Lines(Body(entries))) == WithEntries(m, Trimmed(entries))
    decreases |entries|
  {
    if entries != [] {
      var e := entries[0];
      assert e in entries;
      var line, rest := e.0 + "\t" + e.1, Body(entries[1..]);
      EntryReadsBack(m, e);
      assert Body(entries) == line + "\n" + rest;
      LineOff(line, rest);
      assert Lines(Body(entries))[1..] == Lines(rest);
      BodyReadsBack(m[e.0 := TrimEnd(e.1)], entries[1..]);
      assert Trimmed(entries)[1..] == Trimmed(entries[1..]);
    }
  }

  lemma {:induction false} WithEntriesFacts(m: map<string, string>, entries: seq<Entry>)
    requires forall x, y :: x in entries && y in entries && x.0 == y.0 ==> x == y
    ensures var r := WithEntries(m, entries);
            && (forall e :: e in entries ==> e.0 in r && r[e.0] == e.1)
            && (forall id :: id in r && !(id in m && r[id] == m[id]) ==> (id, r[id]) in entries)
            && (forall id :: id in m && (forall e :: e in entries ==> e.0 != id) ==> id in r && r[id] == m[id])
    decreases |entries|
  {
    if entries != [] {
      var e := entries[0];
      assert entries == [e] + entries[1..];
      WithEntriesFacts(m[e.0 := e.1], entries[1..]);
    }
  }

  predicate Comment(line: string) {
    '\n' !in line && line != [] && line[0] == '#' && !IsWhitespace(line[|line| - 1])
  }

  lemma HeaderLines()
    ensures Comment(TITLE) && Comment(COLUMNS)
  {
  }

  lemma CommentSkipped(line: string, rest: string)
    requires Comment(line)
    ensures ReadLines(map[], Lines(line + "\n" + rest)) == ReadLines(map[], Lines(rest))
  {
    assert IsWhitespace('\r') && !IsWhitespace('#');
    assert Trim(line) == line && StripCr(line) == line;
    LineOff(line, rest);
    assert ([line] + Lines(rest))[1..] == Lines(rest);
  }

  lemma HeaderSkipped(rest: string)
    ensures ReadLines(map[], Lines(TITLE + "\n" + (COLUMNS + "\n" + rest))) == ReadLines(map[], Lines(rest))
  {
    HeaderLines();
    CommentSkipped(TITLE, COLUMNS + "\n" + rest);
    CommentSkipped(COLUMNS, rest);
  }

  lemma FileReadsBack(entries: seq<Entry>)
    requires forall e :: e in entries ==> CleanId(e.0) && Legible(e.1)
    ensures Parse(Format(entries)) == WithEntries(map[], Trimmed(Sort(entries, ById)))
  {
    var sorted := Sort(entries, ById);
    HeaderSkipped(Body(sorted));
    BodyReadsBack(map[], sorted);
  }

  /** The trimmed entries list exactly the trimmed map. */
  lemma TrimmedEntries(sorted: seq<Entry>, m: map<string, string>)
    requires forall e :: e in sorted <==> e.0 in m && m[e.0] == e.1
    ensures forall e :: e in Trimmed(sorted) <==> e.0 in m && TrimEnd(m[e.0]) == e.1
  {
    var kept := Trimmed(sorted);
    forall e: Entry | e.0 in m && TrimEnd(m[e.0]) == e.1 ensures e in kept {
      assert (e.0, m[e.0]) in sorted;
      var i :| 0 <= i < |sorted| && sorted[i] == (e.0, m[e.0]);
      assert kept[i] == e;
    }
  }

  lemma TrimmedMap(sorted: seq<Entry>, m: map<string, string>)
    requires forall e :: e in sorted <==> e.0 in m && m[e.0] == e.1
    ensures WithEntries(map[], Trimmed(sorted)) == map id | id in m :: TrimEnd(m[id])
  {
    TrimmedEntries(sorted, m);
    WithEntriesFacts(map[], Trimmed(sorted));
    var r := WithEntries(map[], Trimmed(sorted));
    forall id | id in m ensures id in r && r[id] == TrimEnd(m[id]) {
      assert (id, TrimEnd(m[id])) in Trimmed(sorted);
    }
    forall id | id in r ensures id in m {
      assert (id, r[id]) in Trimmed(sorted);
    }
  }

  /** Main result: names come back without their trailing white space. */
  lemma ReadBackTrimmed(m: map<string, string>)
    requires forall id :: id in m ==> CleanId(id) && Legible(m[id])
    ensures Parse(FormatOf(m)) == map id | id in m :: TrimEnd(m[id])
  {
    FileReadsBack(SomeOrder(m));
    TrimmedMap(Sort(SomeOrder(m), ById), m);
  }

  /** Main result: the persisted file is read back as the map that was written
      exactly when every id and name is clean. */
  lemma RoundTrip(m: map<string, string>)
    ensures Parse(FormatOf(m)) == m <==> CleanMap(m)
  {
    ParseClean(FormatOf(m));
    if CleanMap(m) {
      ReadBackTrimmed(m);
    }
  }
}
