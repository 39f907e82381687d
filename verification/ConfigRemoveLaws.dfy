/** What is read of a block after a key that was there is removed. */
module ConfigRemoveLaws {
  import opened ConfigBlockLaws
  import opened ConfigBlocks
  import opened Text
  import opened TextLines
  import opened Wrappers

  // ---------------------------------------------------------------------
  // The line that goes
  // ---------------------------------------------------------------------

  /** Which line the reader takes a key from, and what it had read before that line. */
  function TakenFrom(lines: seq<string>, reading: Reading, key: string): (r: (nat, Reading))
    ensures r.0 <= |lines|
    decreases |lines|
  {
    if lines == [] || Stops(lines[0]) then (|lines|, reading)
    else if key in VisitValue(lines[0], reading).values then (0, reading)
    else
      var r := TakenFrom(lines[1..], VisitValue(lines[0], reading), key);
      (r.0 + 1, r.1)
  }

  /** The lines without one of them; the last one leaves the line feed before it. */
  function Cut(lines: seq<string>, d: nat): seq<string>
    requires d < |lines|
  {
    lines[..d] + if d + 1 < |lines| then lines[d + 1..] else [""]
  }

  /** Removal by the offsets the reader recorded takes out exactly the line the key was read from. */
  ghost predicate CutsLine(p: string, lines: seq<string>, scan: Scan, key: string) {
    var child := ScanLines(lines, |p|, scan).children;
    var d := TakenFrom(lines, View(scan), key).0;
    var u := p + Join(lines);
    && key in child && d < |lines|
    && |p| <= child[key].valueStart <= child[key].valueEnd <= |u|
    && u[..LineStart(u, child[key].valueStart)] + u[NextLine(u, child[key].valueEnd)..] == p + Join(Cut(lines, d))
  }

  lemma {:induction false} RemovalCutsLine(p: string, lines: seq<string>, scan: Scan, key: string)
    requires AreLines(lines) && p != "" && p[|p| - 1] == '\n'
    requires key !in scan.children && key in ScanLines(lines, |p|, scan).children
    ensures CutsLine(p, lines, scan, key)
    decreases |lines|
  {
    hide MatchChild, Stops, Join, Visit, VisitValue, ScanLines, CutsLine, TakenFrom;
    var line, rest := lines[0], lines[1..];
    assert lines == [line] + rest;
    ScanCons(line, rest, |p|, scan);
    var next := Visit(line, |p|, scan);
    if key in next.children {
      FirstIsCut(p, line, rest, scan, key);
    } else {
      NoLines(next, |p| + |line| + 1);
      var q := p + (line + "\n");
      assert rest != [] && AreLines(rest) && |q| == |p| + |line| + 1 && q[|q| - 1] == '\n';
      RemovalCutsLine(q, rest, next, key);
      LaterIsCut(p, line, rest, scan, key);
    }
  }

  /** Where a line's value stands when the line is the one a key is read from. */
  lemma FoundOnLine(line: string, base: nat, scan: Scan, key: string)
    requires key !in scan.children && key in Visit(line, base, scan).children
    ensures MatchChild(line).Some?
    ensures
      var m, child := MatchChild(line).value, Visit(line, base, scan).children[key];
      child.valueStart == base + m.valueStart && child.valueEnd == base + m.valueEnd
  {
    hide StripYamlQuotes, MatchChild;
  }

  lemma TakenHere(line: string, rest: seq<string>, base: nat, scan: Scan, key: string)
    requires !Stops(line) && key in Visit(line, base, scan).children
    ensures TakenFrom([line] + rest, View(scan), key).0 == 0
  {
    hide Stops, VisitValue, Visit, View;
    ViewOfVisit(line, base, scan);
    assert key in View(Visit(line, base, scan)).values by { ViewHas(Visit(line, base, scan), key); }
    assert ([line] + rest)[0] == line;
  }

  lemma ViewHas(scan: Scan, key: string)
    ensures key in View(scan).values <==> key in scan.children
  {
  }

  lemma CutOfFirst(line: string, rest: seq<string>)
    ensures Cut([line] + rest, 0) == if rest == [] then [""] else rest
  {
  }

  lemma EmptyJoin()
    ensures Join([""]) == ""
  {
  }

  lemma FirstIsCut(p: string, line: string, rest: seq<string>, scan: Scan, key: string)
    requires NoFeed(line) && p != "" && p[|p| - 1] == '\n' && !Stops(line)
    requires key !in scan.children && key in Visit(line, |p|, scan).children
    ensures CutsLine(p, [line] + rest, scan, key)
  {
    hide Stops, Join, ScanLines, LineStart, NextLine, NoFeed, Visit, MatchChild, TakenFrom, View, Cut;
    CutOfFirst(line, rest);
    FoundOnLine(line, |p|, scan, key);
    var m := MatchChild(line).value;
    ScanCons(line, rest, |p|, scan);
    ScanKeepsChild(rest, |p| + |line| + 1, Visit(line, |p|, scan), key);
    TakenHere(line, rest, |p|, scan, key);
    JoinCons(line, rest);
    if rest == [] {
      CutLast(p, line, m.valueStart, m.valueEnd);
      EmptyJoin();
      assert p + "" == p;
    } else {
      CutLine(p, line, Join(rest), m.valueStart, m.valueEnd);
    }
  }

  /** The last line of the document cut out by its offsets. */
  lemma CutLast(p: string, line: string, from: nat, until: nat)
    requires p != "" && p[|p| - 1] == '\n' && NoFeed(line) && from <= until <= |line|
    ensures
      var u := p + line;
      u[..LineStart(u, |p| + from)] + u[NextLine(u, |p| + until)..] == p
  {
    var u := p + line;
    assert forall i :: |p| <= i < |u| ==> u[i] == line[i - |p|];
    LineStartIs(u, |p| + from, |p|);
    forall i | |p| <= i
      ensures !At(u, "\n", i)
    {
      assert i < |u| ==> u[i..i + 1] == [u[i]];
    }
    assert IndexOf(u, "\n", |p| + until) == -1;
  }

  lemma LaterIsCut(p: string, line: string, rest: seq<string>, scan: Scan, key: string)
    requires NoFeed(line) && rest != [] && !Stops(line)
    requires key !in scan.children && key !in Visit(line, |p|, scan).children
    requires CutsLine(p + (line + "\n"), rest, Visit(line, |p|, scan), key)
    ensures CutsLine(p, [line] + rest, scan, key)
  {
    hide Stops, Join, ScanLines, StripYamlQuotes, LineStart, NextLine, NoFeed, MatchChild, Visit, VisitValue;
    var lines, q := [line] + rest, p + (line + "\n");
    ScanCons(line, rest, |p|, scan);
    ViewOfVisit(line, |p|, scan);
    assert lines[0] == line && lines[1..] == rest;
    JoinCons(line, rest);
    assert q + Join(rest) == p + Join(lines);
    var d := TakenFrom(rest, View(Visit(line, |p|, scan)), key).0;
    assert TakenFrom(lines, View(scan), key).0 == d + 1;
    assert Cut(lines, d + 1) == [line] + Cut(rest, d);
    JoinCons(line, Cut(rest, d));
    assert q + Join(Cut(rest, d)) == p + Join(Cut(lines, d + 1));
  }

  // ---------------------------------------------------------------------
  // What is read without it
  // ---------------------------------------------------------------------

  /** The value of the next line of a key at an indent. */
  function NextValue(lines: seq<string>, indent: string, key: string): Option<string> {
    if lines == [] || Stops(lines[0]) then None
    else
      match MatchChild(lines[0])
      case Some(m) =>
        if lines[0][..m.indentEnd] == indent && lines[0][m.indentEnd..m.keyEnd] == key then
          Some(StripYamlQuotes(lines[0][m.valueStart..m.valueEnd]))
        else NextValue(lines[1..], indent, key)
      case None => NextValue(lines[1..], indent, key)
  }

  /** The indent of the next child line of any kind. */
  function NextIndent(lines: seq<string>): Option<string> {
    if lines == [] || Stops(lines[0]) then None
    else
      match MatchChild(lines[0])
      case Some(m) => Some(lines[0][..m.indentEnd])
      case None => NextIndent(lines[1..])
  }

  function Replaced(values: map<string, string>, key: string, value: Option<string>): map<string, string> {
    if value.Some? then values[key := value.value] else values - {key}
  }

  /** A value read earlier keeps later lines of its key out; without it the next one is read, and nothing else changes. */
  lemma {:induction false} WithoutValue(lines: seq<string>, reading: Reading, key: string, v: string)
    requires key !in reading.values && reading.first.Some?
    ensures
      var with := ReadLines(lines, Reading(reading.values[key := v], reading.first));
      ReadLines(lines, reading).values == Replaced(with.values, key, NextValue(lines, reading.first.value, key))
    decreases |lines|
  {
    hide Stops, StripYamlQuotes, MatchChild;
    var with := Reading(reading.values[key := v], reading.first);
    if lines == [] || Stops(lines[0]) {
      assert with.values - {key} == reading.values;
    } else {
      var next := VisitValue(lines[0], reading);
      if key in next.values {
        var w := next.values[key];
        ReadingCarriesValue(lines[1..], with, key, w);
        assert next.values == with.values[key := w];
        assert VisitValue(lines[0], with) == with;
      } else {
        assert VisitValue(lines[0], with) == Reading(next.values[key := v], next.first);
        WithoutValue(lines[1..], next, key, v);
      }
    }
  }

  /** The first child line sets the indent, whether or not the reader was told it before. */
  lemma {:induction false} IndentIsSet(lines: seq<string>, indent: string)
    requires NextIndent(lines) == None || NextIndent(lines) == Some(indent)
    ensures ReadLines(lines, NOTHING).values == ReadLines(lines, Reading(map[], Some(indent))).values
    decreases |lines|
  {
    hide Stops, StripYamlQuotes, MatchChild;
    if lines != [] && !Stops(lines[0]) {
      if MatchChild(lines[0]).None? {
        IndentIsSet(lines[1..], indent);
      } else {
        assert VisitValue(lines[0], NOTHING) == VisitValue(lines[0], Reading(map[], Some(indent)));
      }
    }
  }

  predicate NothingRead(reading: Reading) {
    reading.first.None? ==> reading == NOTHING
  }

  /** Where the key was read, and how the lines before and after it are read. */
  lemma {:induction false} TakenLine(lines: seq<string>, reading: Reading, key: string)
    requires key !in reading.values && key in ReadLines(lines, reading).values && NothingRead(reading)
    ensures
      var (d, before) := TakenFrom(lines, reading, key);
      && d < |lines| && key !in before.values && NothingRead(before)
      && MatchChild(lines[d]).Some?
      && var m := MatchChild(lines[d]).value;
         var indent, v := lines[d][..m.indentEnd], StripYamlQuotes(lines[d][m.valueStart..m.valueEnd]);
         && (before.first.Some? ==> before.first.value == indent)
         && lines[d][m.indentEnd..m.keyEnd] == key
         && ReadLines(lines, reading) == ReadLines(lines[d + 1..], Reading(before.values[key := v], Some(indent)))
         && ReadLines(Cut(lines, d), reading) == ReadLines(lines[d + 1..], before)
    decreases |lines|
  {
    hide Stops, StripYamlQuotes, MatchChild;
    var line, rest := lines[0], lines[1..];
    assert lines == [line] + rest;
    ReadCons(line, rest, reading);
    if key in VisitValue(line, reading).values {
      CutFirst(lines, reading);
    } else {
      TakenLine(rest, VisitValue(line, reading), key);
      var d := TakenFrom(rest, VisitValue(line, reading), key).0;
      assert Cut(lines, d + 1) == [line] + Cut(rest, d);
      ReadCons(line, Cut(rest, d), reading);
      assert lines[d + 1 + 1..] == rest[d + 1..];
    }
  }

  lemma CutFirst(lines: seq<string>, reading: Reading)
    requires lines != []
    ensures ReadLines(Cut(lines, 0), reading) == ReadLines(lines[1..], reading)
  {
    if |lines| == 1 {
      assert Cut(lines, 0) == [""];
      assert MatchChild("") == None;
      ReadCons("", [], reading);
      assert [""] + [] == [""];
    } else {
      assert Cut(lines, 0) == lines[1..];
    }
  }

  /** The key's line may go without another indent taking over: it is not the first child line, or the next has its indent. */
  predicate IndentStays(lines: seq<string>, key: string) {
    var (d, before) := TakenFrom(lines, NOTHING, key);
    && d < |lines| && MatchChild(lines[d]).Some?
    && (before.first.Some?
        || NextIndent(lines[d + 1..]).None?
        || NextIndent(lines[d + 1..]) == Some(lines[d][..MatchChild(lines[d]).value.indentEnd]))
  }

  /** What the lines say once the key's line is gone. */
  function ReadWithout(lines: seq<string>, key: string): map<string, string> {
    var d := TakenFrom(lines, NOTHING, key).0;
    if d == |lines| || MatchChild(lines[d]).None? then ReadLines(lines, NOTHING).values
    else if IndentStays(lines, key) then
      Replaced(
        ReadLines(lines, NOTHING).values, key,
        NextValue(lines[d + 1..], lines[d][..MatchChild(lines[d]).value.indentEnd], key))
    else ReadLines(lines[d + 1..], NOTHING).values
  }

  lemma CutReads(lines: seq<string>, key: string)
    requires key in ReadLines(lines, NOTHING).values
    ensures
      var d := TakenFrom(lines, NOTHING, key).0;
      d < |lines| && ReadLines(Cut(lines, d), NOTHING).values == ReadWithout(lines, key)
  {
    hide Stops, StripYamlQuotes, MatchChild, ReadLines, NextValue, NextIndent, Cut;
    TakenLine(lines, NOTHING, key);
    var (d, before) := TakenFrom(lines, NOTHING, key);
    var m := MatchChild(lines[d]).value;
    var indent, v := lines[d][..m.indentEnd], StripYamlQuotes(lines[d][m.valueStart..m.valueEnd]);
    if before.first.Some? {
      WithoutValue(lines[d + 1..], before, key, v);
    } else if IndentStays(lines, key) {
      IndentIsSet(lines[d + 1..], indent);
      WithoutValue(lines[d + 1..], Reading(map[], Some(indent)), key, v);
    }
  }

  /** The lines behind the block's header. */
  function BodyLines(content: string, name: string): seq<string> {
    match FindBody(content, name, 0)
    case None => []
    case Some(body) => Split(content[body..])
  }

  /**
   * After the removal of a key that was there, the block reads as before without
   * it, or with the next line of the same key if there is one; unless its line was
   * the first child line and the next one has another indent: then that indent's
   * children are read instead. Every other document is left as it is.
   */
  lemma ReadAfterRemove(content: string, name: string, key: string)
    ensures key in Children(content, name) ==>
      Children(Removed(content, name, key), name) == ReadWithout(BodyLines(content, name), key)
    ensures key !in Children(content, name) ==> Removed(content, name, key) == content
  {
    hide MatchChild, Stops, StripYamlQuotes, ReadLines, ScanLines, Split, Join, FindBody, ReadWithout, TakenFrom,
      LineStart, NextLine, Cut;
    if key in Children(content, name) {
      var body := FindBody(content, name, 0).value;
      var p, text := content[..body], content[body..];
      var lines := Split(text);
      JoinSplit(text);
      EmptyView();
      ChildrenOfBody(content, name);
      BodyIsBounded(content, body);
      ViewOfScan(lines, body, EMPTY);
      assert content == p + text;
      RemovalCutsLine(p, lines, EMPTY, key);
      CutReads(lines, key);
      var d := TakenFrom(lines, NOTHING, key).0;
      var cut := Cut(lines, d);
      assert Removed(content, name, key) == p + Join(cut);
      CutAreLines(lines, d);
      SplitJoin(cut);
      HeaderIsFoundAgain(p, text, Join(cut), name, 0);
      assert (p + Join(cut))[body..] == Join(cut);
      ChildrenOfBody(p + Join(cut), name);
    }
  }

  lemma CutAreLines(lines: seq<string>, d: nat)
    requires AreLines(lines) && d < |lines|
    ensures AreLines(Cut(lines, d))
  {
    assert NoFeed("");
  }
}
