/** Edits and reads of a block agree, whatever text surrounds it. */
module ConfigBlockLaws {
  import opened ConfigBlocks
  import opened Text
  import opened TextLines
  import opened Wrappers

  // ---------------------------------------------------------------------
  // What is read, without where it stands
  // ---------------------------------------------------------------------

  datatype Reading = Reading(values: map<string, string>, first: Option<string>)

  const NOTHING := Reading(map[], None)

  function View(scan: Scan): Reading {
    Reading(map k | k in scan.children :: scan.children[k].value, scan.first)
  }

  function VisitValue(line: string, reading: Reading): Reading {
    match MatchChild(line)
    case None => reading
    case Some(m) =>
      var indent := line[..m.indentEnd];
      var key := line[m.indentEnd..m.keyEnd];
      var first := if reading.first.Some? then reading.first else Some(indent);
      if Some(indent) != first || key in reading.values then reading.(first := first)
      else Reading(reading.values[key := StripYamlQuotes(line[m.valueStart..m.valueEnd])], first)
  }

  function ReadLines(lines: seq<string>, reading: Reading): Reading
    decreases |lines|
  {
    if lines == [] || Stops(lines[0]) then reading else ReadLines(lines[1..], VisitValue(lines[0], reading))
  }

  /** The values a reader of the document sees in the block. */
  function Children(content: string, name: string): map<string, string> {
    View(ReadBlock(content, name)).values
  }

  lemma {:induction false} ViewOfScan(lines: seq<string>, base: nat, scan: Scan)
    ensures View(ScanLines(lines, base, scan)) == ReadLines(lines, View(scan))
    decreases |lines|
  {
    hide MatchChild, Stops, Visit, VisitValue, View;
    if lines != [] && !Stops(lines[0]) {
      ViewOfVisit(lines[0], base, scan);
      ViewOfScan(lines[1..], base + |lines[0]| + 1, Visit(lines[0], base, scan));
    }
  }

  lemma ChildrenOfBody(content: string, name: string)
    requires FindBody(content, name, 0).Some?
    ensures Children(content, name) == ReadLines(Split(content[FindBody(content, name, 0).value..]), NOTHING).values
  {
    var body := FindBody(content, name, 0).value;
    ViewOfScan(Split(content[body..]), body, EMPTY);
    assert View(EMPTY) == NOTHING;
  }

  lemma ReadCons(line: string, rest: seq<string>, reading: Reading)
    ensures ReadLines([line] + rest, reading) == if Stops(line) then reading else ReadLines(rest, VisitValue(line, reading))
  {
    assert ([line] + rest)[1..] == rest;
  }

  // ---------------------------------------------------------------------
  // Child lines
  // ---------------------------------------------------------------------

  predicate NoHash(s: string) {
    forall i :: 0 <= i < |s| ==> s[i] != '#'
  }

  /** A value the writer may put on a line as it is. */
  predicate Writable(r: string) {
    r != "" && !IsBlank(r[0]) && !IsBlank(r[|r| - 1]) && NoHash(r) && NoFeed(r)
  }

  lemma QuotedIsWritable(value: string)
    requires NoHash(value) && NoFeed(value)
    ensures Writable(Rendered(value, true)) && StripYamlQuotes(Rendered(value, true)) == value
  {
    var r := Rendered(value, true);
    TrimKeeps(r);
    assert r[1..|r| - 1] == value;
  }

  function Spliced(line: string, from: nat, until: nat, r: string): string
    requires from <= until <= |line|
  {
    line[..from] + r + line[until..]
  }

  predicate Blanks(s: string) {
    forall i :: 0 <= i < |s| ==> IsBlank(s[i])
  }

  lemma BlankRun(p: string, run: string, rest: string)
    requires Blanks(run) && (rest == "" || !IsBlank(rest[0]))
    ensures BlankEnd(p + run + rest, |p|) == |p| + |run|
  {
    var s := p + run + rest;
    assert forall i :: |p| <= i < |p| + |run| ==> s[i] == run[i - |p|];
    assert rest != "" ==> s[|p| + |run|] == rest[0];
  }

  lemma KeyRun(p: string, run: string, rest: string)
    requires (forall i :: 0 <= i < |run| ==> KeyChar(run[i])) && (rest == "" || !KeyChar(rest[0]))
    ensures KeyEnd(p + run + rest, |p|) == |p| + |run|
  {
    var s := p + run + rest;
    assert forall i :: |p| <= i < |p| + |run| ==> s[i] == run[i - |p|];
    assert rest != "" ==> s[|p| + |run|] == rest[0];
  }

  lemma CommentRun(p: string, run: string, rest: string)
    requires NoHash(run) && (rest == "" || rest[0] == '#')
    ensures CommentStart(p + run + rest, |p|) == |p| + |run|
  {
    var s := p + run + rest;
    assert forall i :: |p| <= i < |p| + |run| ==> s[i] == run[i - |p|];
    assert rest != "" ==> s[|p| + |run|] == rest[0];
  }

  lemma ValueRun(p: string, run: string, blanks: string, rest: string)
    requires run != "" && !IsBlank(run[|run| - 1]) && Blanks(blanks)
    ensures ValueEnd(p + run + blanks + rest, |p|, |p + run + blanks|) == |p| + |run|
  {
    var s := p + run + blanks + rest;
    var at := |p| + |run|;
    assert s[at - 1] == run[|run| - 1];
    assert forall i :: at <= i < at + |blanks| ==> s[i] == blanks[i - at];
  }

  /** A line put together from indent, key, gap, value, blanks and perhaps a comment. */
  function Assembled(indent: string, key: string, gap: string, value: string, blanks: string, comment: string): string {
    indent + key + Tail(gap, value, blanks, comment)
  }

  function Tail(gap: string, value: string, blanks: string, comment: string): string {
    ":" + gap + value + blanks + comment
  }

  predicate Parts(indent: string, key: string, gap: string, blanks: string, comment: string) {
    && IsIndent(indent) && ValidKey(key) && Blanks(gap) && Blanks(blanks)
    && (comment == "" || comment[0] == '#') && OneLine(comment)
  }

  lemma FirstBlankRun(run: string, rest: string)
    requires Blanks(run) && (rest == "" || !IsBlank(rest[0]))
    ensures BlankEnd(run + rest, 0) == |run|
  {
    assert rest != "" ==> (run + rest)[|run|] == rest[0];
  }

  lemma IndentMatches(indent: string, key: string, rest: string)
    requires IsIndent(indent) && ValidKey(key)
    ensures BlankEnd(indent + key + rest, 0) == |indent|
  {
    assert (key + rest)[0] == key[0];
    FirstBlankRun(indent, key + rest);
    assert indent + (key + rest) == indent + key + rest;
  }

  lemma HeadMatches(s: string, indent: string, key: string, rest: string)
    requires s == indent + key + rest
    requires IsIndent(indent) && ValidKey(key) && rest != "" && rest[0] == ':'
    ensures
      && BlankEnd(s, 0) == |indent| && KeyEnd(s, |indent|) == |indent| + |key|
      && s[|indent|] == key[0] && s[|indent| + |key|] == ':'
  {
    IndentMatches(indent, key, rest);
    KeyRun(indent, key, rest);
  }

  lemma CommentMatches(q: string, value: string, blanks: string, comment: string)
    requires NoHash(value) && Blanks(blanks) && (comment == "" || comment[0] == '#')
    ensures CommentStart(q + value + blanks + comment, |q|) == |q| + |value| + |blanks|
    ensures (q + value + blanks + comment)[|q| + |value| + |blanks|..] == comment
  {
    CommentRun(q, value + blanks, comment);
    Assoc(q, value, blanks);
    DropPrefix(q + value + blanks, comment);
  }

  lemma Assoc(a: string, b: string, c: string)
    ensures a + b + c == a + (b + c)
  {
  }

  lemma DropPrefix(a: string, b: string)
    ensures (a + b)[|a|..] == b
  {
  }

  lemma TailMatches(s: string, p: string, gap: string, value: string, blanks: string, comment: string)
    requires s == p + gap + value + blanks + comment
    requires Blanks(gap) && Writable(value) && Blanks(blanks)
    requires (comment == "" || comment[0] == '#') && OneLine(comment)
    ensures
      var v := |p| + |gap|;
      var h := v + |value| + |blanks|;
      && BlankEnd(s, |p|) == v && CommentStart(s, v) == h && s[h..] == comment && ValueEnd(s, v, h) == v + |value|
  {
    GapMatches(p, gap, value, blanks + comment);
    Assoc(p + gap + value, blanks, comment);
    CommentMatches(p + gap, value, blanks, comment);
    ValueRun(p + gap, value, blanks, comment);
  }

  lemma GapMatches(p: string, gap: string, value: string, rest: string)
    requires Blanks(gap) && Writable(value)
    ensures BlankEnd(p + gap + value + rest, |p|) == |p| + |gap|
  {
    BlankRun(p, gap, value + rest);
    assert p + gap + (value + rest) == p + gap + value + rest;
  }

  lemma AssembledMatches(indent: string, key: string, gap: string, value: string, blanks: string, comment: string)
    requires Parts(indent, key, gap, blanks, comment) && Writable(value)
    ensures
      var v := |indent| + |key| + 1 + |gap|;
      MatchChild(Assembled(indent, key, gap, value, blanks, comment))
        == Some(ChildLine(|indent|, |indent| + |key|, v, v + |value|))
  {
    var p := indent + key + ":";
    Regrouped(indent + key, gap, value, blanks, comment);
    PartsMatch(
      Assembled(indent, key, gap, value, blanks, comment), indent, key, Tail(gap, value, blanks, comment),
      p, gap, value, blanks, comment);
  }

  lemma PartsMatch(
    s: string, indent: string, key: string, rest: string,
    p: string, gap: string, value: string, blanks: string, comment: string)
    requires Parts(indent, key, gap, blanks, comment) && Writable(value)
    requires s == indent + key + rest && rest != "" && rest[0] == ':'
    requires s == p + gap + value + blanks + comment && |p| == |indent| + |key| + 1
    ensures MatchChild(s) == Some(ChildLine(|indent|, |indent| + |key|, |p| + |gap|, |p| + |gap| + |value|))
  {
    hide BlankEnd, KeyEnd, CommentStart, ValueEnd, MatchChild, Tail, Assembled, Writable;
    TailMatches(s, p, gap, value, blanks, comment);
    HeadMatches(s, indent, key, rest);
    MatchIs(s, |indent|, |indent| + |key|, |p| + |gap|, |p| + |gap| + |value| + |blanks|, |p| + |gap| + |value|);
  }

  lemma MatchIs(s: string, i: nat, k: nat, v: nat, h: nat, e: nat)
    requires 0 < i < k < v <= h <= |s| && BlankEnd(s, 0) == i && KeyStart(s[i]) && KeyEnd(s, i) == k && s[k] == ':'
    requires BlankEnd(s, k + 1) == v && CommentStart(s, v) == h && OneLine(s[h..]) && ValueEnd(s, v, h) == e
    ensures MatchChild(s) == Some(ChildLine(i, k, v, e))
  {
    hide BlankEnd, KeyEnd, CommentStart, ValueEnd, OneLine, KeyStart;
  }

  lemma Regrouped(x: string, gap: string, value: string, blanks: string, comment: string)
    ensures x + Tail(gap, value, blanks, comment) == x + ":" + gap + value + blanks + comment
  {
  }

  /** The parts of a matched line. */
  lemma MatchedParts(line: string, m: ChildLine)
    requires MatchChild(line) == Some(m)
    ensures
      var h := CommentStart(line, m.valueStart);
      && m.valueEnd <= h
      && Parts(
        line[..m.indentEnd], line[m.indentEnd..m.keyEnd], line[m.keyEnd + 1..m.valueStart], line[m.valueEnd..h], line[h..])
      && line[m.keyEnd] == ':'
  {
  }

  /** Writing another value leaves a line the same child with that value. */
  lemma SplicedMatches(line: string, m: ChildLine, r: string)
    requires MatchChild(line) == Some(m) && Writable(r)
    ensures MatchChild(Spliced(line, m.valueStart, m.valueEnd, r))
      == Some(ChildLine(m.indentEnd, m.keyEnd, m.valueStart, m.valueStart + |r|))
  {
    hide MatchChild, Writable, Parts, Spliced, Assembled, CommentStart;
    MatchedParts(line, m);
    var h := CommentStart(line, m.valueStart);
    SplicedParts(line, m.indentEnd, m.keyEnd, m.valueStart, m.valueEnd, h, r);
    MatchOfParts(
      Spliced(line, m.valueStart, m.valueEnd, r), m.indentEnd, m.keyEnd, m.valueStart,
      line[..m.indentEnd], line[m.indentEnd..m.keyEnd], line[m.keyEnd + 1..m.valueStart], r,
      line[m.valueEnd..h], line[h..]);
  }

  lemma MatchOfParts(
    s: string, i: nat, k: nat, v: nat,
    indent: string, key: string, gap: string, value: string, blanks: string, comment: string)
    requires Parts(indent, key, gap, blanks, comment) && Writable(value)
    requires s == Assembled(indent, key, gap, value, blanks, comment)
    requires |indent| == i && |key| == k - i && |gap| == v - k - 1
    ensures MatchChild(s) == Some(ChildLine(i, k, v, v + |value|))
  {
    AssembledMatches(indent, key, gap, value, blanks, comment);
  }

  lemma SplicedParts(line: string, i: nat, k: nat, v: nat, e: nat, h: nat, r: string)
    requires i <= k < v <= e <= h <= |line| && line[k] == ':'
    ensures Spliced(line, v, e, r) == Assembled(line[..i], line[i..k], line[k + 1..v], r, line[e..h], line[h..])
  {
    assert line[..v] == line[..i] + line[i..k] + ":" + line[k + 1..v];
    assert line[e..] == line[e..h] + line[h..];
    Regrouped(line[..i] + line[i..k], line[k + 1..v], r, line[e..h], line[h..]);
  }

  predicate IsIndent(s: string) {
    s != "" && forall i :: 0 <= i < |s| ==> IsBlank(s[i])
  }

  /** The inserted line is a child at its indent. */
  lemma NewLineMatches(indent: string, key: string, r: string)
    requires IsIndent(indent) && ValidKey(key) && Writable(r)
    ensures
      var line := NewLine(indent, key, r);
      var v := |indent| + |key| + 2;
      && MatchChild(line) == Some(ChildLine(|indent|, |indent| + |key|, v, v + |r|))
      && line[..|indent|] == indent && line[|indent|..|indent| + |key|] == key && line[v..v + |r|] == r
      && !Stops(line) && NoFeed(line)
  {
    AssembledMatches(indent, key, " ", r, "", "");
    var line := NewLine(indent, key, r);
    assert Tail(" ", r, "", "") == ": " + r;
    assert indent + key + (": " + r) == line;
    assert forall i :: 0 <= i < |indent| ==> line[i] == indent[i];
    NoFeedsIn(indent, key, r);
  }

  lemma NoFeedsIn(indent: string, key: string, r: string)
    requires IsIndent(indent) && ValidKey(key) && NoFeed(r)
    ensures NoFeed(NewLine(indent, key, r))
  {
    assert NoFeed(indent) && NoFeed(key) && NoFeed(": ");
    assert NoFeed(indent + key);
    assert NoFeed(indent + key + ": ");
  }

  // ---------------------------------------------------------------------
  // Changing one value
  // ---------------------------------------------------------------------

  /** A value that is already read is not affected by the lines after it, nor they by it. */
  lemma {:induction false} ReadingCarriesValue(lines: seq<string>, reading: Reading, key: string, v: string)
    requires key in reading.values
    ensures key in ReadLines(lines, reading).values
    ensures ReadLines(lines, reading).values[key] == reading.values[key]
    ensures ReadLines(lines, Reading(reading.values[key := v], reading.first))
      == Reading(ReadLines(lines, reading).values[key := v], ReadLines(lines, reading).first)
    decreases |lines|
  {
    if lines != [] && !Stops(lines[0]) {
      var next := VisitValue(lines[0], reading);
      var changed := Reading(reading.values[key := v], reading.first);
      assert VisitValue(lines[0], changed) == Reading(next.values[key := v], next.first);
      ReadingCarriesValue(lines[1..], next, key, v);
    }
  }

  lemma {:induction false} ScanKeepsChild(lines: seq<string>, base: nat, scan: Scan, key: string)
    requires key in scan.children
    ensures key in ScanLines(lines, base, scan).children
    ensures ScanLines(lines, base, scan).children[key] == scan.children[key]
    decreases |lines|
  {
    if lines != [] && !Stops(lines[0]) {
      ScanKeepsChild(lines[1..], base + |lines[0]| + 1, Visit(lines[0], base, scan), key);
    }
  }

  /** The text with the value of a child replaced where the reader found it. */
  function Edited(text: string, base: nat, child: BlockChild, r: string): string
    requires base <= child.valueStart <= child.valueEnd <= base + |text|
  {
    text[..child.valueStart - base] + r + text[child.valueEnd - base..]
  }

  lemma SplicedKeepsLine(line: string, m: ChildLine, r: string)
    requires MatchChild(line) == Some(m) && Writable(r) && NoFeed(line)
    ensures
      var s := Spliced(line, m.valueStart, m.valueEnd, r);
      && NoFeed(s) && !Stops(s)
      && s[..m.indentEnd] == line[..m.indentEnd]
      && s[m.indentEnd..m.keyEnd] == line[m.indentEnd..m.keyEnd]
      && s[m.valueStart..m.valueStart + |r|] == r
  {
    hide MatchChild, Stops, NoFeed, Writable;
    var s := Spliced(line, m.valueStart, m.valueEnd, r);
    SplicedSlices(line, m.indentEnd, m.keyEnd, m.valueStart, m.valueEnd, r);
    SplicedFeeds(line, m.valueStart, m.valueEnd, r);
    BlankStarts(s);
  }

  lemma SplicedSlices(line: string, i: nat, k: nat, v: nat, e: nat, r: string)
    requires 0 < i <= k <= v <= e <= |line|
    ensures
      var s := Spliced(line, v, e, r);
      s[0] == line[0] && s[..i] == line[..i] && s[i..k] == line[i..k] && s[v..v + |r|] == r
  {
  }

  lemma SplicedFeeds(line: string, v: nat, e: nat, r: string)
    requires v <= e <= |line| && NoFeed(line) && Writable(r)
    ensures NoFeed(Spliced(line, v, e, r))
  {
    assert NoFeed(line[..v]) && NoFeed(line[e..]) && NoFeed(line[..v] + r);
  }

  lemma BlankStarts(s: string)
    requires s != "" && IsBlank(s[0])
    ensures !Stops(s)
  {
  }

  /** Visiting the spliced line reads the new value in the same place. */
  lemma VisitSpliced(line: string, m: ChildLine, r: string, reading: Reading)
    requires MatchChild(line) == Some(m) && Writable(r) && NoFeed(line)
    ensures
      var key := line[m.indentEnd..m.keyEnd];
      var next := VisitValue(line, reading);
      key in next.values && key !in reading.values ==>
        VisitValue(Spliced(line, m.valueStart, m.valueEnd, r), reading)
          == Reading(next.values[key := StripYamlQuotes(r)], next.first)
  {
    hide MatchChild;
    SplicedMatches(line, m, r);
    SplicedKeepsLine(line, m, r);
    var key := line[m.indentEnd..m.keyEnd];
    var next := VisitValue(line, reading);
    if key in next.values && key !in reading.values {
      assert next.values[key := StripYamlQuotes(r)] == reading.values[key := StripYamlQuotes(r)];
    }
  }

  lemma JoinCons(line: string, rest: seq<string>)
    ensures Join([line] + rest) == if rest == [] then line else line + "\n" + Join(rest)
  {
    assert ([line] + rest)[1..] == rest;
  }

  lemma SplitCons(line: string, rest: string)
    requires NoFeed(line)
    ensures Split(line + "\n" + rest) == [line] + Split(rest)
  {
    SplitAppend(line, rest);
    SplitLine(line);
  }

  /** Splicing into the first of several lines. */
  lemma EditFirst(line: string, rest: seq<string>, from: nat, until: nat, r: string)
    requires from <= until <= |line| && (rest == [] || AreLines(rest))
    requires NoFeed(Spliced(line, from, until, r))
    ensures
      var text := Join([line] + rest);
      && until <= |text|
      && Split(text[..from] + r + text[until..]) == [Spliced(line, from, until, r)] + rest
  {
    JoinCons(line, rest);
    var text := Join([line] + rest);
    var s := Spliced(line, from, until, r);
    if rest == [] {
      assert text[..from] + r + text[until..] == s;
      SplitLine(s);
      assert [s] + rest == [s];
    } else {
      assert text[until..] == line[until..] + ("\n" + Join(rest));
      assert text[..from] + r + text[until..] == s + "\n" + Join(rest);
      SplitCons(s, Join(rest));
      SplitJoin(rest);
    }
  }

  lemma LaterSlices(line: string, later: string, from: nat, until: nat, r: string)
    requires from <= until <= |later|
    ensures
      var text := line + "\n" + later;
      var d := |line| + 1;
      text[..d + from] + r + text[d + until..] == line + "\n" + (later[..from] + r + later[until..])
  {
    var text := line + "\n" + later;
    assert text[..|line| + 1 + from] == line + "\n" + later[..from];
    assert text[|line| + 1 + until..] == later[until..];
  }

  /** Splicing behind the first of several lines. */
  lemma EditLater(line: string, rest: seq<string>, from: nat, until: nat, r: string)
    requires NoFeed(line) && AreLines(rest) && from <= until <= |Join(rest)|
    ensures
      var text := Join([line] + rest);
      var d := |line| + 1;
      && d + until <= |text|
      && Split(text[..d + from] + r + text[d + until..]) == [line] + Split(Join(rest)[..from] + r + Join(rest)[until..])
  {
    hide Join, Split, NoFeed;
    JoinCons(line, rest);
    var later := Join(rest);
    LaterSlices(line, later, from, until, r);
    SplitCons(line, later[..from] + r + later[until..]);
  }

  lemma ViewOfVisit(line: string, base: nat, scan: Scan)
    ensures View(Visit(line, base, scan)) == VisitValue(line, View(scan))
  {
    hide MatchChild, StripYamlQuotes;
  }

  /** Replacing a child's value where the scan found it changes what is read for that key, and nothing else. */
  ghost predicate EditReads(lines: seq<string>, base: nat, scan: Scan, key: string, r: string) {
    && key in ScanLines(lines, base, scan).children
    && var child := ScanLines(lines, base, scan).children[key];
       var before := ReadLines(lines, View(scan));
       && base <= child.valueStart <= child.valueEnd <= base + |Join(lines)|
       && ReadLines(Split(Edited(Join(lines), base, child, r)), View(scan))
         == Reading(before.values[key := StripYamlQuotes(r)], before.first)
  }

  lemma {:induction false} EditedReads(lines: seq<string>, base: nat, scan: Scan, key: string, r: string)
    requires AreLines(lines) && Writable(r)
    requires key !in scan.children && key in ScanLines(lines, base, scan).children
    ensures EditReads(lines, base, scan, key, r)
    decreases |lines|
  {
    hide MatchChild, Stops, StripYamlQuotes, Split, Join, ReadLines, VisitValue, EditReads, Visit, ScanLines,
      Writable;
    assert lines != [];
    var line, rest := lines[0], lines[1..];
    assert lines == [line] + rest;
    ScanCons(line, rest, base, scan);
    var next := Visit(line, base, scan);
    if key in next.children {
      EditedFirst(line, rest, base, scan, key, r);
    } else {
      NoLines(next, base + |line| + 1);
      assert AreLines(rest);
      EditedReads(rest, base + |line| + 1, next, key, r);
      EditedBehind(line, rest, base, scan, key, r);
    }
  }

  lemma EditedFirst(line: string, rest: seq<string>, base: nat, scan: Scan, key: string, r: string)
    requires NoFeed(line) && (rest == [] || AreLines(rest)) && Writable(r) && !Stops(line)
    requires key !in scan.children && key in Visit(line, base, scan).children
    ensures EditReads([line] + rest, base, scan, key, r)
  {
    hide MatchChild, Stops, StripYamlQuotes, ScanLines, ReadLines, Split, Join, VisitValue, NoFeed, Writable;
    var next := Visit(line, base, scan);
    var m := MatchChild(line).value;
    ScanCons(line, rest, base, scan);
    ScanKeepsChild(rest, base + |line| + 1, next, key);
    SplicedKeepsLine(line, m, r);
    EditFirst(line, rest, m.valueStart, m.valueEnd, r);
    var s := Spliced(line, m.valueStart, m.valueEnd, r);
    VisitSpliced(line, m, r, View(scan));
    ViewOfVisit(line, base, scan);
    ReadCons(line, rest, View(scan));
    ReadCons(s, rest, View(scan));
    ReadingCarriesValue(rest, View(next), key, StripYamlQuotes(r));
  }

  lemma EditedBehind(line: string, rest: seq<string>, base: nat, scan: Scan, key: string, r: string)
    requires NoFeed(line) && AreLines(rest) && !Stops(line)
    requires EditReads(rest, base + |line| + 1, Visit(line, base, scan), key, r)
    ensures EditReads([line] + rest, base, scan, key, r)
  {
    hide Stops, StripYamlQuotes, ScanLines, ReadLines, Split, Join, Visit, VisitValue, NoFeed, AreLines, View;
    var base' := base + |line| + 1;
    var next := Visit(line, base, scan);
    var child := ScanLines(rest, base', next).children[key];
    ViewOfVisit(line, base, scan);
    ScanCons(line, rest, base, scan);
    ReadCons(line, rest, View(scan));
    EditLater(line, rest, child.valueStart - base', child.valueEnd - base', r);
    ReadCons(line, Split(Edited(Join(rest), base', child, r)), View(scan));
  }

  // ---------------------------------------------------------------------
  // Adding a child
  // ---------------------------------------------------------------------

  predicate IndentOk(first: Option<string>, indent: string) {
    first.Some? ==> first.value == indent
  }

  lemma {:induction false} FirstStays(lines: seq<string>, reading: Reading)
    ensures reading.first.Some? ==> ReadLines(lines, reading).first == reading.first
    ensures reading.values.Keys <= ReadLines(lines, reading).values.Keys
    decreases |lines|
  {
    hide MatchChild, Stops, StripYamlQuotes;
    if lines != [] && !Stops(lines[0]) {
      FirstStays(lines[1..], VisitValue(lines[0], reading));
    }
  }

  /** A child read before the others, at their indent and under a key of its own, does not disturb them. */
  lemma {:induction false} AddedReads(lines: seq<string>, reading: Reading, key: string, v: string, indent: string)
    requires key !in ReadLines(lines, reading).values
    requires IndentOk(ReadLines(lines, reading).first, indent) && IndentOk(reading.first, indent)
    ensures ReadLines(lines, Reading(reading.values[key := v], Some(indent)))
      == Reading(ReadLines(lines, reading).values[key := v], Some(indent))
    decreases |lines|
  {
    hide MatchChild, Stops, StripYamlQuotes;
    if lines != [] && !Stops(lines[0]) {
      var next := VisitValue(lines[0], reading);
      FirstStays(lines[1..], next);
      assert VisitValue(lines[0], Reading(reading.values[key := v], Some(indent)))
        == Reading(next.values[key := v], Some(indent));
      AddedReads(lines[1..], next, key, v, indent);
    }
  }

  lemma {:induction false} FirstIsIndent(lines: seq<string>, reading: Reading)
    requires reading.first.Some? ==> IsIndent(reading.first.value)
    ensures ReadLines(lines, reading).first.Some? ==> IsIndent(ReadLines(lines, reading).first.value)
    decreases |lines|
  {
    hide Stops, StripYamlQuotes;
    if lines != [] && !Stops(lines[0]) {
      VisitIndents(lines[0], reading);
      FirstIsIndent(lines[1..], VisitValue(lines[0], reading));
    }
  }

  lemma VisitIndents(line: string, reading: Reading)
    requires reading.first.Some? ==> IsIndent(reading.first.value)
    ensures VisitValue(line, reading).first.Some? ==> IsIndent(VisitValue(line, reading).first.value)
  {
    if MatchChild(line).Some? {
      MatchedParts(line, MatchChild(line).value);
    }
  }

  /** Reading the block after a line for a new key was put in front of its lines. */
  lemma InsertedReads(lines: seq<string>, key: string, r: string, indent: string)
    requires ValidKey(key) && Writable(r)
    requires key !in ReadLines(lines, NOTHING).values
    requires indent == ChildIndent(Scan(map[], ReadLines(lines, NOTHING).first))
    ensures IsIndent(indent) && NoFeed(NewLine(indent, key, r))
    ensures ReadLines([NewLine(indent, key, r)] + lines, NOTHING)
      == Reading(ReadLines(lines, NOTHING).values[key := StripYamlQuotes(r)], Some(indent))
  {
    hide MatchChild, StripYamlQuotes, ReadLines, Stops, NewLine;
    FirstIsIndent(lines, NOTHING);
    assert IsIndent("  ");
    NewLineMatches(indent, key, r);
    var line := NewLine(indent, key, r);
    ReadCons(line, lines, NOTHING);
    assert VisitValue(line, NOTHING) == Reading(NOTHING.values[key := StripYamlQuotes(r)], Some(indent));
    AddedReads(lines, NOTHING, key, StripYamlQuotes(r), indent);
  }

  // ---------------------------------------------------------------------
  // Finding the block again
  // ---------------------------------------------------------------------

  lemma FirstFeed(p: string, x: string, from: nat, feed: int)
    requires from <= feed < |p| && IndexOf(p + x, "\n", from) == feed
    ensures forall y: string :: IndexOf(p + y, "\n", from) == feed
  {
    forall y: string
      ensures IndexOf(p + y, "\n", from) == feed
    {
      forall i | from <= i <= feed
        ensures At(p + x, "\n", i) <==> At(p + y, "\n", i)
      {
        assert (p + x)[i..i + 1] == [p[i]] == (p + y)[i..i + 1];
      }
    }
  }

  lemma SearchOne(s: string, name: string, from: nat)
    requires from < |s|
    ensures
      var feed := IndexOf(s, "\n", from);
      FindBody(s, name, from)
        == if StartsLine(s, from) && feed != -1 && IsBareHeader(s[from..feed], name) then Some(feed + 1)
           else FindBody(s, name, from + 1)
  {
    hide StartsLine, IsBareHeader, IndexOf;
  }

  lemma SamePrefix(p: string, x: string, y: string, from: nat, feed: nat)
    requires from <= feed < |p|
    ensures StartsLine(p + x, from) == StartsLine(p + y, from)
    ensures (p + x)[from..feed] == (p + y)[from..feed]
  {
  }

  lemma FeedBeforeEnd(p: string, x: string, from: nat)
    requires from < |p| && p[|p| - 1] == '\n'
    ensures from <= IndexOf(p + x, "\n", from) < |p|
  {
    assert (p + x)[|p| - 1..|p|] == "\n";
    assert At(p + x, "\n", |p| - 1);
  }

  /** What follows a block's header has no part in finding it. */
  lemma {:induction false} HeaderIsFoundAgain(p: string, x: string, y: string, name: string, from: nat)
    requires from <= |p| && FindBody(p + x, name, from) == Some(|p|)
    ensures FindBody(p + y, name, from) == Some(|p|)
    decreases |p| - from
  {
    hide IsBareHeader, StartsLine, IndexOf, FindBody;
    assert from < |p| && p[|p| - 1] == (p + x)[|p| - 1];
    FeedBeforeEnd(p, x, from);
    var feed := IndexOf(p + x, "\n", from);
    FirstFeed(p, x, from, feed);
    assert IndexOf(p + y, "\n", from) == feed;
    SamePrefix(p, x, y, from, feed);
    SearchOne(p + x, name, from);
    SearchOne(p + y, name, from);
    if !(StartsLine(p + x, from) && IsBareHeader((p + x)[from..feed], name)) {
      HeaderIsFoundAgain(p, x, y, name, from + 1);
    }
  }

  /** The last line of the document, without a line feed, is a bare header of the block. */
  ghost predicate Dangling(content: string, name: string) {
    exists i: nat :: i <= |content| && DanglesAt(content, name, i)
  }

  predicate DanglesAt(content: string, name: string, i: nat)
    requires i <= |content|
  {
    StartsLine(content, i) && NoFeed(content[i..]) && IsBareHeader(content[i..], name)
  }

  lemma FeedOf(s: string, from: nat, feed: nat)
    requires from <= feed < |s| && s[feed] == '\n'
    requires forall i :: from <= i < feed ==> s[i] != '\n'
    ensures IndexOf(s, "\n", from) == feed
  {
    assert s[feed..feed + 1] == "\n";
    assert At(s, "\n", feed);
    forall i | from <= i < feed
      ensures !At(s, "\n", i)
    {
      assert s[i..i + 1] == [s[i]];
    }
  }

  lemma FeedIn(content: string, from: nat)
    requires from <= |content|
    ensures
      var feed := IndexOf(content, "\n", from);
      if feed == -1 then NoFeed(content[from..])
      else content[feed] == '\n' && forall i :: from <= i < feed ==> content[i] != '\n'
  {
    forall i | from <= i < |content| && content[i] == '\n'
      ensures At(content, "\n", i)
    {
      assert content[i..i + 1] == "\n";
    }
    var feed := IndexOf(content, "\n", from);
    if feed != -1 {
      assert content[feed..feed + 1] == "\n";
    }
  }

  lemma Continued(content: string, rest: string)
    ensures
      var t := content + Separator(content) + rest;
      && (forall i :: 0 <= i < |content| ==> t[i] == content[i])
      && (content != "" && content[|content| - 1] != '\n' ==> |t| > |content| && t[|content|] == '\n')
      && (forall i, j :: 0 <= i <= j <= |content| ==> t[i..j] == content[i..j])
  {
    var t := content + Separator(content) + rest;
    forall i, j | 0 <= i <= j <= |content|
      ensures t[i..j] == content[i..j]
    {
    }
  }

  lemma SearchedLine(content: string, rest: string, from: nat)
    requires from < |content|
    ensures
      var t := content + Separator(content) + rest;
      var feed := IndexOf(content, "\n", from);
      && StartsLine(t, from) == StartsLine(content, from)
      && IndexOf(t, "\n", from) == (if feed == -1 then |content| else feed)
      && t[from..IndexOf(t, "\n", from)] == (if feed == -1 then content[from..] else content[from..feed])
      && (feed == -1 <==> NoFeed(content[from..]))
  {
    hide IsTerminator, IndexOf, Separator;
    var t := content + Separator(content) + rest;
    var feed := IndexOf(content, "\n", from);
    Continued(content, rest);
    FeedIn(content, from);
    if feed == -1 {
      NoFeedFrom(content, from);
      FeedOf(t, from, |content|);
      assert content[from..|content|] == content[from..];
    } else {
      FeedOf(t, from, feed);
      assert content[feed] == content[from..][feed - from];
    }
  }

  lemma NoFeedFrom(content: string, from: nat)
    requires from < |content| && NoFeed(content[from..])
    ensures forall i :: from <= i < |content| ==> content[i] != '\n'
  {
    forall i | from <= i < |content|
      ensures content[i] != '\n'
    {
      assert content[i] == content[from..][i - from];
    }
  }

  /** One position of the search, in a document that continues behind a line feed of its own or an added one. */
  lemma SearchStep(content: string, rest: string, name: string, from: nat)
    requires from < |content| && FindBody(content, name, from) == None
    ensures FindBody(content, name, from + 1) == None
    ensures
      var t := content + Separator(content) + rest;
      FindBody(t, name, from)
        == if DanglesAt(content, name, from) then Some(|content| + 1) else FindBody(t, name, from + 1)
  {
    hide IsBareHeader, FindBody, StartsLine, IndexOf, Separator, NoFeed;
    SearchOne(content, name, from);
    SearchOne(content + Separator(content) + rest, name, from);
    SearchedLine(content, rest, from);
  }

  lemma {:induction false} SearchToTheEnd(content: string, rest: string, name: string, from: nat)
    requires from <= |content| && FindBody(content, name, from) == None
    requires forall i: nat :: from <= i < |content| ==> !DanglesAt(content, name, i)
    ensures
      var t := content + Separator(content) + rest;
      FindBody(t, name, from) == FindBody(t, name, |content|)
    decreases |content| - from
  {
    hide DanglesAt, IsBareHeader, FindBody, Separator;
    if from < |content| {
      SearchStep(content, rest, name, from);
      SearchToTheEnd(content, rest, name, from + 1);
    }
  }

  lemma {:induction false} SearchToTheDangling(content: string, rest: string, name: string, from: nat, i: nat)
    requires from <= i < |content| && FindBody(content, name, from) == None && DanglesAt(content, name, i)
    ensures FindBody(content + Separator(content) + rest, name, from) == Some(|content| + 1)
    decreases |content| - from
  {
    hide DanglesAt, IsBareHeader, FindBody, Separator;
    SearchStep(content, rest, name, from);
    if from < i && !DanglesAt(content, name, from) {
      SearchToTheDangling(content, rest, name, from + 1, i);
    }
  }

  lemma BareHeader(name: string)
    requires ValidKey(name)
    ensures IsBareHeader(name + ":", name) && NoFeed(name) && NoFeed(name + ":")
  {
  }

  /** A text stands at a position of another one. */
  predicate Stands(t: string, at: nat, s: string) {
    at + |s| <= |t| && forall i :: 0 <= i < |s| ==> t[at + i] == s[i]
  }

  lemma AppendedStands(head: string, s: string, rest: string)
    ensures Stands(head + (s + rest), |head|, s)
  {
  }

  /** A bare header standing at the start of a line is found there. */
  lemma StandingHeader(t: string, at: nat, name: string)
    requires ValidKey(name) && Stands(t, at, name + ":\n") && StartsLine(t, at)
    ensures FindBody(t, name, at) == Some(at + |name| + 2)
  {
    hide IndexOf, StartsLine, IsBareHeader;
    var header := name + ":\n";
    var feed := at + |name| + 1;
    BareHeader(name);
    assert header[|name|] == ':' && header[|name| + 1] == '\n';
    assert t[at + (|name| + 1)] == '\n' && t[at + |name|] == ':';
    forall i | at <= i < at + |name|
      ensures t[i] == name[i - at]
    {
      assert t[at + (i - at)] == header[i - at];
    }
    FeedOf(t, at, feed);
    assert t[at..feed] == name + ":";
    SearchOne(t, name, at);
  }

  lemma HeaderText(head: string, name: string, rest: string)
    ensures (head + (name + ":\n" + rest))[|head| + |name| + 2..] == rest
  {
  }

  lemma HeaderFound(t: string, head: string, name: string, rest: string)
    requires ValidKey(name) && (head == "" || head[|head| - 1] == '\n')
    requires t == head + (name + ":\n" + rest)
    ensures FindBody(t, name, |head|) == Some(|head| + |name| + 2)
  {
    hide *;
    AppendedStands(head, name + ":\n", rest);
    LineOfItsOwn(head, name, rest);
    StandingHeader(t, |head|, name);
  }

  lemma LineOfItsOwn(head: string, name: string, rest: string)
    requires head == "" || head[|head| - 1] == '\n'
    ensures StartsLine(head + (name + ":\n" + rest), |head|)
  {
    assert head != "" ==> (head + (name + ":\n" + rest))[|head| - 1] == '\n';
  }

  /** The appended header is the block's header when the search gets to it. */
  lemma HeaderAtTheEnd(content: string, name: string, rest: string)
    requires ValidKey(name)
    ensures
      var head := content + Separator(content);
      FindBody(head + (name + ":\n" + rest), name, |content|) == Some(|head| + |name| + 2)
  {
    hide ValidKey, NoFeed, IndexOf, FindBody;
    var head := content + Separator(content);
    var t := head + (name + ":\n" + rest);
    HeaderFound(t, head, name, rest);
    if |head| == |content| + 1 {
      assert t[|content|] == '\n';
      FeedOf(t, |content|, |content|);
      assert t[|content|..|content|] == "";
      assert !IsBareHeader("", name);
      SearchOne(t, name, |content|);
    }
  }

  // ---------------------------------------------------------------------
  // The laws
  // ---------------------------------------------------------------------

  lemma UpsertExisting(content: string, name: string, key: string, r: string)
    requires Writable(r) && key in ReadBlock(content, name).children
    ensures Children(Upserted(content, name, key, r), name) == Children(content, name)[key := StripYamlQuotes(r)]
  {
    hide MatchChild, Stops, StripYamlQuotes, IsBareHeader, ReadLines, ScanLines, Split, Join, FindBody, Writable,
      Children;
    var body := FindBody(content, name, 0).value;
    var p, text := content[..body], content[body..];
    var lines := Split(text);
    BodyIsBounded(content, body);
    JoinSplit(text);
    EditedReads(lines, body, EMPTY, key, r);
    var child := ScanLines(lines, body, EMPTY).children[key];
    var edited := Edited(text, body, child, r);
    EmptyView();
    SplicedDocument(content, body, child.valueStart, child.valueEnd, r);
    HeaderIsFoundAgain(p, text, edited, name, 0);
    ChildrenOfBody(content, name);
    ChildrenOfBody(p + edited, name);
  }

  lemma EmptyView()
    ensures View(EMPTY) == NOTHING
  {
  }

  lemma SplicedDocument(content: string, body: nat, from: nat, until: nat, r: string)
    requires body <= from <= until <= |content|
    ensures
      var p, text := content[..body], content[body..];
      var edited := text[..from - body] + r + text[until - body..];
      && content == p + text
      && content[..from] + r + content[until..] == p + edited
      && (p + edited)[body..] == edited
  {
    assert content[..from] == content[..body] + content[body..][..from - body];
    assert content[until..] == content[body..][until - body..];
  }

  lemma UpsertNew(content: string, name: string, key: string, r: string)
    requires ValidKey(key) && Writable(r)
    requires FindBody(content, name, 0).Some? && key !in ReadBlock(content, name).children
    ensures
      var body := FindBody(content, name, 0).value;
      var line := NewLine(ChildIndent(ReadBlock(content, name)), key, r);
      && IsIndent(ChildIndent(ReadBlock(content, name)))
      && Upserted(content, name, key, r) == content[..body] + (line + "\n" + content[body..])
      && FindBody(Upserted(content, name, key, r), name, 0) == Some(body)
      && Children(Upserted(content, name, key, r), name) == Children(content, name)[key := StripYamlQuotes(r)]
  {
    hide MatchChild, Stops, StripYamlQuotes, IsBareHeader, ReadLines, ScanLines, Split, Join, NewLine;
    var body := FindBody(content, name, 0).value;
    var p, text := content[..body], content[body..];
    var lines := Split(text);
    var indent := ChildIndent(ReadBlock(content, name));
    var line := NewLine(indent, key, r);
    ViewOfScan(lines, body, EMPTY);
    assert View(EMPTY) == NOTHING;
    ChildrenOfBody(content, name);
    InsertedReads(lines, key, r, indent);
    SplitCons(line, text);
    assert content == p + text;
    var inserted := line + "\n" + text;
    assert p + line + "\n" + text == p + inserted;
    HeaderIsFoundAgain(p, text, inserted, name, 0);
    assert (p + inserted)[body..] == inserted;
    ChildrenOfBody(p + inserted, name);
  }

  lemma AppendedText(content: string, name: string, key: string, r: string)
    requires FindBody(content, name, 0).None?
    ensures Upserted(content, name, key, r)
      == content + Separator(content) + (name + ":\n" + (NewLine("  ", key, r) + "\n"))
  {
    hide FindBody, NewLine;
    var head := content + Separator(content);
    var line := NewLine("  ", key, r);
    assert head + name + ":\n" + line + "\n" == head + (name + ":\n" + (line + "\n"));
  }

  lemma OneLineBlock(t: string, name: string, key: string, r: string)
    requires ValidKey(key) && Writable(r) && FindBody(t, name, 0).Some?
    requires t[FindBody(t, name, 0).value..] == NewLine("  ", key, r) + "\n"
    ensures Children(t, name) == map[key := StripYamlQuotes(r)]
  {
    hide *;
    ChildrenOfBody(t, name);
    LineAlone(key, r);
  }

  lemma LineAlone(key: string, r: string)
    requires ValidKey(key) && Writable(r)
    ensures ReadLines(Split(NewLine("  ", key, r) + "\n"), NOTHING).values == map[key := StripYamlQuotes(r)]
  {
    hide MatchChild, StripYamlQuotes, ReadLines, NewLine, Writable, ValidKey;
    var line := NewLine("  ", key, r);
    EmptyReads();
    InsertedReads([""], key, r, "  ");
    SplitCons(line, "");
    SplitLine("");
    assert line + "\n" + "" == line + "\n";
  }

  lemma UpsertBlock(content: string, name: string, key: string, r: string)
    requires ValidKey(name) && ValidKey(key) && Writable(r) && FindBody(content, name, 0).None?
    ensures !Dangling(content, name) ==> Children(Upserted(content, name, key, r), name) == map[key := StripYamlQuotes(r)]
    ensures Dangling(content, name) ==> Children(Upserted(content, name, key, r), name) == map[]
  {
    hide MatchChild, StripYamlQuotes, IsBareHeader, ReadLines, ScanLines, Split, Join, NewLine, FindBody, Upserted;
    hide Children, DanglesAt, ValidKey, Writable, Separator;
    var rest := NewLine("  ", key, r) + "\n";
    AppendedText(content, name, key, r);
    if Dangling(content, name) {
      DanglingHides(content, name, rest);
    } else {
      SearchToTheEnd(content, name + ":\n" + rest, name, 0);
      HeaderAtTheEnd(content, name, rest);
      HeaderText(content + Separator(content), name, rest);
      OneLineBlock(Upserted(content, name, key, r), name, key, r);
    }
  }

  lemma EmptyReads()
    ensures ReadLines([""], NOTHING) == NOTHING
  {
    assert MatchChild("") == None;
  }

  /** Behind a dangling header the appended one is just the line that ends its empty block. */
  lemma DanglingHides(content: string, name: string, rest: string)
    requires ValidKey(name) && FindBody(content, name, 0).None? && Dangling(content, name)
    ensures Children(content + Separator(content) + (name + ":\n" + rest), name) == map[]
  {
    hide MatchChild, StripYamlQuotes, Split, Join, FindBody, BlankEnd, Separator, Children, ReadLines, StartsLine,
      ValidKey;
    var i: nat :| i <= |content| && DanglesAt(content, name, i);
    var tail := name + ":\n" + rest;
    assert content[i..] != "";
    SearchToTheDangling(content, tail, name, 0, i);
    DanglingTail(content, i, tail);
    ChildrenOfBody(content + Separator(content) + tail, name);
    HeaderLineStops(name, rest);
  }

  lemma DanglingTail(content: string, i: nat, tail: string)
    requires i < |content| && NoFeed(content[i..])
    ensures (content + Separator(content) + tail)[|content| + 1..] == tail
  {
    assert content[|content| - 1] == content[i..][|content| - 1 - i];
  }

  lemma HeaderLineStops(name: string, rest: string)
    requires ValidKey(name)
    ensures ReadLines(Split(name + ":\n" + rest), NOTHING) == NOTHING
  {
    hide Split, IsSpace, ReadLines;
    var line := name + ":";
    assert NoFeed(line);
    SplitCons(line, rest);
    assert line + "\n" + rest == name + ":\n" + rest;
    assert line[0] == name[0];
    KeyIsVisible(name[0]);
    ReadCons(line, Split(rest), NOTHING);
  }

  lemma KeyIsVisible(c: char)
    requires KeyStart(c)
    ensures !IsSpace(c)
  {
  }

  predicate PlainValues(reading: Reading) {
    forall k :: k in reading.values ==> NoHash(reading.values[k]) && NoFeed(reading.values[k])
  }

  lemma RawIsPlain(line: string, m: ChildLine)
    requires NoFeed(line) && MatchChild(line) == Some(m)
    ensures
      var raw := line[m.valueStart..m.valueEnd];
      NoHash(StripYamlQuotes(raw)) && NoFeed(StripYamlQuotes(raw))
  {
    hide StripYamlQuotes;
    var raw := line[m.valueStart..m.valueEnd];
    assert forall i :: 0 <= i < |raw| ==> raw[i] == line[m.valueStart + i];
    StrippedIsPlain(raw);
  }

  lemma StrippedIsPlain(raw: string)
    requires NoHash(raw) && NoFeed(raw)
    ensures NoHash(StripYamlQuotes(raw)) && NoFeed(StripYamlQuotes(raw))
  {
    hide IsSpace, Blank, SpaceEnd;
    var t := TrimStart(raw);
    assert NoHash(t) && NoFeed(t);
    var u := TrimEnd(t);
    assert NoHash(u) && NoFeed(u);
    if |u| >= 2 {
      assert NoHash(u[1..|u| - 1]) && NoFeed(u[1..|u| - 1]);
    }
  }

  lemma VisitIsPlain(line: string, reading: Reading)
    requires NoFeed(line) && PlainValues(reading)
    ensures PlainValues(VisitValue(line, reading))
  {
    hide StripYamlQuotes, MatchChild, NoFeed, NoHash;
    if MatchChild(line).Some? {
      RawIsPlain(line, MatchChild(line).value);
    }
  }

  /** No reader ever sees a comment sign or a line feed in a value. */
  lemma {:induction false} ReadIsPlain(lines: seq<string>, reading: Reading)
    requires forall i :: 0 <= i < |lines| ==> NoFeed(lines[i])
    requires PlainValues(reading)
    ensures PlainValues(ReadLines(lines, reading))
    decreases |lines|
  {
    hide MatchChild, Stops, StripYamlQuotes, PlainValues;
    if lines != [] && !Stops(lines[0]) {
      VisitIsPlain(lines[0], reading);
      ReadIsPlain(lines[1..], VisitValue(lines[0], reading));
    }
  }

  lemma ChildrenArePlain(content: string, name: string, key: string)
    requires key in Children(content, name)
    ensures NoHash(Children(content, name)[key]) && NoFeed(Children(content, name)[key])
  {
    hide FindBody, ReadLines, ScanLines;
    if FindBody(content, name, 0).Some? {
      ChildrenOfBody(content, name);
      ReadIsPlain(Split(content[FindBody(content, name, 0).value..]), NOTHING);
    }
  }

  /**
   * After an upsert the block reads as before with the new value under the key,
   * exactly if the value has no comment sign and no line feed and the document
   * did not, lacking the block, end in its bare header.
   */
  lemma ReadAfterUpsertExactly(content: string, name: string, key: string, value: string)
    requires ValidKey(name) && ValidKey(key)
    ensures Children(Upserted(content, name, key, Rendered(value, true)), name) == Children(content, name)[key := value]
      <==> NoHash(value) && NoFeed(value) && (FindBody(content, name, 0).Some? || !Dangling(content, name))
  {
    hide MatchChild, Stops, StripYamlQuotes, IsBareHeader, ReadLines, ScanLines, Split, Join, NewLine, FindBody;
    var r := Rendered(value, true);
    var after := Children(Upserted(content, name, key, r), name);
    if key in after {
      ChildrenArePlain(Upserted(content, name, key, r), name, key);
    }
    assert Children(content, name)[key := value][key] == value;
    if NoHash(value) && NoFeed(value) {
      QuotedIsWritable(value);
      if FindBody(content, name, 0).None? {
        UpsertBlock(content, name, key, r);
        assert Children(content, name) == map[];
        assert key in map[key := value];
      } else if key in ReadBlock(content, name).children {
        UpsertExisting(content, name, key, r);
      } else {
        UpsertNew(content, name, key, r);
      }
    }
  }

  /** The unquoted form writes numbers and booleans: it reads back as itself exactly if the reader would not strip it. */
  lemma ReadAfterPlainUpsertExactly(content: string, name: string, key: string, value: string)
    requires ValidKey(name) && ValidKey(key) && Writable(value)
    requires FindBody(content, name, 0).Some? || !Dangling(content, name)
    ensures Children(Upserted(content, name, key, Rendered(value, false)), name) == Children(content, name)[key := value]
      <==> StripYamlQuotes(value) == value
  {
    hide MatchChild, Stops, StripYamlQuotes, IsBareHeader, ReadLines, ScanLines, Split, Join, NewLine, FindBody;
    if FindBody(content, name, 0).None? {
      UpsertBlock(content, name, key, value);
      assert Children(content, name) == map[];
    } else if key in ReadBlock(content, name).children {
      UpsertExisting(content, name, key, value);
    } else {
      UpsertNew(content, name, key, value);
    }
    var after := Children(Upserted(content, name, key, value), name);
    assert after == Children(content, name)[key := StripYamlQuotes(value)];
    assert after[key] == StripYamlQuotes(value);
    assert Children(content, name)[key := value][key] == value;
  }

  lemma {:induction false} LineStartIs(s: string, at: nat, start: nat)
    requires start <= at <= |s| && (start == 0 || s[start - 1] == '\n')
    requires forall i :: start <= i < at ==> s[i] != '\n'
    ensures LineStart(s, at) == start
    decreases at
  {
    if start < at {
      LineStartIs(s, at - 1, start);
    }
  }

  /** The inserted line cut out again by its offsets. */
  lemma CutLine(p: string, line: string, text: string, from: nat, until: nat)
    requires p != "" && p[|p| - 1] == '\n' && NoFeed(line)
    requires from <= until <= |line|
    ensures
      var u := p + (line + "\n" + text);
      u[..LineStart(u, |p| + from)] + u[NextLine(u, |p| + until)..] == p + text
  {
    hide NoFeed, IndexOf;
    var u := p + (line + "\n" + text);
    LineInside(p, line, text);
    LineStartIs(u, |p| + from, |p|);
    FeedOf(u, |p| + until, |p| + |line|);
    assert u[..|p|] == p;
    assert u[|p| + |line| + 1..] == text;
  }

  lemma LineInside(p: string, line: string, text: string)
    requires p != "" && p[|p| - 1] == '\n' && NoFeed(line)
    ensures
      var u := p + (line + "\n" + text);
      && u[|p| - 1] == '\n' && u[|p| + |line|] == '\n'
      && forall i :: |p| <= i < |p| + |line| ==> u[i] != '\n'
  {
    var u := p + (line + "\n" + text);
    assert forall i :: |p| <= i < |p| + |line| ==> u[i] == line[i - |p|];
  }

  /** Where the reader finds an inserted line's value. */
  lemma InsertedChild(line: string, lines: seq<string>, body: nat, key: string, indent: string, r: string)
    requires IsIndent(indent) && ValidKey(key) && Writable(r) && line == NewLine(indent, key, r)
    ensures
      var scan := ScanLines([line] + lines, body, EMPTY);
      var v := |indent| + |key| + 2;
      && key in scan.children
      && scan.children[key].valueStart == body + v
      && scan.children[key].valueEnd == body + v + |r| == body + |line|
  {
    hide MatchChild, StripYamlQuotes, Stops, ScanLines, NewLine, Writable, ValidKey, IsIndent;
    NewLineMatches(indent, key, r);
    ScanCons(line, lines, body, EMPTY);
    ScanKeepsChild(lines, body + |line| + 1, Visit(line, body, EMPTY), key);
    NewLineLength(indent, key, r);
  }

  lemma NewLineLength(indent: string, key: string, r: string)
    ensures |NewLine(indent, key, r)| == |indent| + |key| + 2 + |r|
  {
  }

  /** Removing a key that an upsert added to an existing block gives back the very document. */
  lemma RemoveUndoesUpsert(content: string, name: string, key: string, r: string)
    requires ValidKey(key) && Writable(r)
    requires FindBody(content, name, 0).Some? && key !in ReadBlock(content, name).children
    ensures Removed(Upserted(content, name, key, r), name, key) == content
  {
    hide MatchChild, StripYamlQuotes, Stops, ScanLines, NewLine, Writable, ValidKey, IsIndent, FindBody, Upserted,
      Split;
    hide LineStart, NextLine, NoFeed, Children, ChildIndent;
    var body := FindBody(content, name, 0).value;
    var p, text := content[..body], content[body..];
    var indent := ChildIndent(ReadBlock(content, name));
    var line := NewLine(indent, key, r);
    UpsertNew(content, name, key, r);
    var u := Upserted(content, name, key, r);
    NewLineMatches(indent, key, r);
    SplitCons(line, text);
    assert u[body..] == line + "\n" + text;
    InsertedChild(line, Split(text), body, key, indent, r);
    var v := |indent| + |key| + 2;
    CutLine(p, line, text, v, v + |r|);
    assert p + text == content;
  }
}
