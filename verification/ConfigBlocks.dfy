/**
 * Direct children of a top-level block in a config document: the reader that
 * records where each value stands, and the edits that splice text there.
 */
module ConfigBlocks {
  import opened Text
  import opened TextLines
  import opened Wrappers

  // ---------------------------------------------------------------------
  // Lines of a block
  // ---------------------------------------------------------------------

  /** Spaces and tabs, the only indentation and gap the reader knows. */
  predicate IsBlank(c: char) {
    c == ' ' || c == '\t'
  }

  predicate ValidKey(key: string) {
    key != [] && KeyStart(key[0]) && forall i :: 0 <= i < |key| ==> KeyChar(key[i])
  }

  function BlankEnd(s: string, from: nat): (r: nat)
    requires from <= |s|
    ensures from <= r <= |s|
    ensures forall i :: from <= i < r ==> IsBlank(s[i])
    ensures r < |s| ==> !IsBlank(s[r])
    decreases |s| - from
  {
    if from < |s| && IsBlank(s[from]) then BlankEnd(s, from + 1) else from
  }

  /** Where a comment begins, or the end of the line. */
  function CommentStart(s: string, from: nat): (r: nat)
    requires from <= |s|
    ensures from <= r <= |s|
    ensures forall i :: from <= i < r ==> s[i] != '#'
    ensures r < |s| ==> s[r] == '#'
    decreases |s| - from
  {
    if from < |s| && s[from] != '#' then CommentStart(s, from + 1) else from
  }

  /** Where the blanks right before an end begin. */
  function ValueEnd(s: string, from: nat, end: nat): (r: nat)
    requires from <= end <= |s|
    ensures from <= r <= end
    ensures forall i :: r <= i < end ==> IsBlank(s[i])
    ensures from < r ==> !IsBlank(s[r - 1])
    decreases end
  {
    if from < end && IsBlank(s[end - 1]) then ValueEnd(s, from, end - 1) else end
  }

  /** The stretches of a child line: indent, key, gap, value, and what is left. */
  datatype ChildLine = ChildLine(indentEnd: nat, keyEnd: nat, valueStart: nat, valueEnd: nat)

  function MatchChild(line: string): (r: Option<ChildLine>)
    ensures r.Some? ==>
      && 0 < r.value.indentEnd < r.value.keyEnd < r.value.valueStart <= r.value.valueEnd <= |line|
      && IsBlank(line[0])
  {
    var i := BlankEnd(line, 0);
    if i == 0 || i == |line| || !KeyStart(line[i]) then None
    else
      var k := KeyEnd(line, i);
      if k == |line| || line[k] != ':' then None
      else
        var v := BlankEnd(line, k + 1);
        var h := CommentStart(line, v);
        if !OneLine(line[h..]) then None else Some(ChildLine(i, k, v, ValueEnd(line, v, h)))
  }

  /** The next top-level key ends the block. */
  predicate Stops(line: string) {
    !Blank(line) && !IsSpace(line[0])
  }

  function StripYamlQuotes(raw: string): string {
    var t := Trim(raw);
    if |t| >= 2 && ((t[0] == '"' && t[|t| - 1] == '"') || (t[0] == '\'' && t[|t| - 1] == '\'')) then t[1..|t| - 1]
    else t
  }

  // ---------------------------------------------------------------------
  // Reading
  // ---------------------------------------------------------------------

  datatype BlockChild = BlockChild(value: string, indent: string, valueStart: nat, valueEnd: nat)

  /** The children read so far, and the indent the first of them set. */
  datatype Scan = Scan(children: map<string, BlockChild>, first: Option<string>)

  const EMPTY := Scan(map[], None)

  function Visit(line: string, base: nat, scan: Scan): Scan {
    match MatchChild(line)
    case None => scan
    case Some(m) =>
      var indent := line[..m.indentEnd];
      var key := line[m.indentEnd..m.keyEnd];
      var first := if scan.first.Some? then scan.first else Some(indent);
      if Some(indent) != first || key in scan.children then scan.(first := first)
      else
        Scan(
          scan.children[key := BlockChild(
            StripYamlQuotes(line[m.valueStart..m.valueEnd]), indent, base + m.valueStart, base + m.valueEnd)],
          first)
  }

  function ScanLines(lines: seq<string>, base: nat, scan: Scan): Scan
    decreases |lines|
  {
    if lines == [] || Stops(lines[0]) then scan
    else ScanLines(lines[1..], base + |lines[0]| + 1, Visit(lines[0], base, scan))
  }

  /** A line that holds the block's name, a colon and nothing else. */
  predicate IsBareHeader(line: string, name: string) {
    && name + ":" <= line
    && var e := BlankEnd(line, |name| + 1);
       e == |line| || line[e..] == "\r"
  }

  predicate StartsLine(s: string, i: nat)
    requires i <= |s|
  {
    i == 0 || IsTerminator(s[i - 1])
  }

  /** Where the body of the first bare header from an index on begins. */
  function FindBody(s: string, name: string, from: nat): (r: Option<nat>)
    requires from <= |s|
    ensures r.Some? ==> from < r.value <= |s| && s[r.value - 1] == '\n'
    decreases |s| - from
  {
    if from == |s| then None
    else
      var feed := IndexOf(s, "\n", from);
      if StartsLine(s, from) && feed != -1 && IsBareHeader(s[from..feed], name) then Some(feed + 1)
      else FindBody(s, name, from + 1)
  }

  function ReadBody(content: string, body: nat): Scan
    requires body <= |content|
  {
    ScanLines(Split(content[body..]), body, EMPTY)
  }

  /** The children of a block by key; none when there is no block. */
  function ReadBlock(content: string, name: string): Scan {
    match FindBody(content, name, 0)
    case None => EMPTY
    case Some(body) => ReadBody(content, body)
  }

  lemma LineEnd(s: string)
    ensures
      var feed := IndexOf(s, "\n", 0);
      Split(s) == if feed == -1 then [s] else [s[..feed]] + Split(s[feed + 1..])
  {
    var feed := IndexOf(s, "\n", 0);
    var line := if feed == -1 then s else s[..feed];
    forall i | 0 <= i < |line|
      ensures line[i] != '\n'
    {
      assert !At(s, "\n", i);
      assert s[i..i + 1] == [s[i]];
    }
    SplitLine(line);
    if feed != -1 {
      SplitAppend(line, s[feed + 1..]);
      assert s == line + "\n" + s[feed + 1..];
    }
  }

  /** The line at a cursor, and where the next one begins. */
  function LineAt(content: string, cursor: nat): (r: (string, nat))
    requires cursor < |content|
    ensures cursor < r.1 <= |content|
  {
    var rest := content[cursor..];
    var lineEnd := IndexOf(rest, "\n", 0);
    if lineEnd == -1 then (rest, |content|) else (rest[..lineEnd], cursor + lineEnd + 1)
  }

  lemma LinesFrom(content: string, cursor: nat)
    requires cursor < |content|
    ensures
      var (line, next) := LineAt(content, cursor);
      && next == (if next == |content| && line == content[cursor..] then |content| else cursor + |line| + 1)
      && Split(content[cursor..])
        == if line == content[cursor..] then [line] else [line] + Split(content[next..])
  {
    hide IndexOf, Split;
    var rest := content[cursor..];
    LineEnd(rest);
    var lineEnd := IndexOf(rest, "\n", 0);
    if lineEnd != -1 {
      assert rest[lineEnd + 1..] == content[cursor + lineEnd + 1..];
    }
  }

  lemma CursorStep(content: string, cursor: nat, scan: Scan)
    requires cursor < |content|
    ensures
      var (line, next) := LineAt(content, cursor);
      ScanLines(Split(content[cursor..]), cursor, scan)
        == if Stops(line) then scan else ScanLines(Split(content[next..]), next, Visit(line, cursor, scan))
  {
    hide IndexOf, Split, ScanLines, Stops, Visit;
    var (line, next) := LineAt(content, cursor);
    LinesFrom(content, cursor);
    if line == content[cursor..] {
      assert [line] + [] == [line];
      ScanCons(line, [], cursor, scan);
      LastLine(Visit(line, cursor, scan), next);
      NoLines(Visit(line, cursor, scan), cursor + |line| + 1);
      assert content[next..] == "";
    } else {
      ScanCons(line, Split(content[next..]), cursor, scan);
    }
  }

  lemma NoLines(scan: Scan, base: nat)
    ensures ScanLines([], base, scan) == scan
  {
  }

  lemma ScanCons(line: string, rest: seq<string>, base: nat, scan: Scan)
    ensures ScanLines([line] + rest, base, scan)
      == if Stops(line) then scan else ScanLines(rest, base + |line| + 1, Visit(line, base, scan))
  {
    assert ([line] + rest)[1..] == rest;
  }

  lemma LastLine(scan: Scan, base: nat)
    ensures ScanLines(Split(""), base, scan) == scan
  {
    assert MatchChild("") == None;
  }

  /** The cursor loop over the lines of a block. */
  method ReadTopLevelBlock(content: string, name: string)
    returns (children: map<string, BlockChild>, blockBodyStart: Option<nat>, childIndent: string)
    ensures blockBodyStart == FindBody(content, name, 0)
    ensures children == ReadBlock(content, name).children
    ensures childIndent == ChildIndent(ReadBlock(content, name))
  {
    blockBodyStart := FindBody(content, name, 0);
    if blockBodyStart.None? {
      return map[], None, "  ";
    }
    var scan := EMPTY;
    var cursor := blockBodyStart.value;
    var stopped := false;
    while cursor < |content| && !stopped
      invariant blockBodyStart.value <= cursor <= |content|
      invariant if stopped then scan == ReadBody(content, blockBodyStart.value)
                else ScanLines(Split(content[cursor..]), cursor, scan) == ReadBody(content, blockBodyStart.value)
      decreases |content| - cursor, !stopped
    {
      CursorStep(content, cursor, scan);
      var (line, next) := LineAt(content, cursor);
      if Stops(line) {
        stopped := true;
      } else {
        scan := Visit(line, cursor, scan);
        cursor := next;
      }
    }
    if !stopped {
      LastLine(scan, cursor);
      assert content[cursor..] == "";
    }
    return scan.children, blockBodyStart, ChildIndent(scan);
  }

  // ---------------------------------------------------------------------
  // Editing
  // ---------------------------------------------------------------------

  function Rendered(value: string, quote: bool): string {
    if quote then "\"" + value + "\"" else value
  }

  /** The line an insertion adds, without its line feed. */
  function NewLine(indent: string, key: string, rendered: string): string {
    indent + key + ": " + rendered
  }

  function ChildIndent(scan: Scan): string {
    if scan.first.Some? then scan.first.value else "  "
  }

  /** The offsets of a child lie in the text that was read. */
  ghost predicate Bounded(scan: Scan, low: nat, high: nat) {
    forall k :: k in scan.children ==> low <= scan.children[k].valueStart <= scan.children[k].valueEnd <= high
  }

  lemma VisitIsBounded(line: string, base: nat, scan: Scan, low: nat, high: nat)
    requires low <= base && base + |line| <= high && Bounded(scan, low, high)
    ensures Bounded(Visit(line, base, scan), low, high)
  {
    hide MatchChild, StripYamlQuotes;
  }

  lemma {:induction false} ScanIsBounded(lines: seq<string>, base: nat, scan: Scan, low: nat, high: nat)
    requires lines != [] && low <= base && base + |Join(lines)| <= high && Bounded(scan, low, high)
    ensures Bounded(ScanLines(lines, base, scan), low, high)
    decreases |lines|
  {
    hide MatchChild, Stops, Visit, Bounded;
    if !Stops(lines[0]) {
      var next := Visit(lines[0], base, scan);
      VisitIsBounded(lines[0], base, scan, low, high);
      if |lines| > 1 {
        ScanIsBounded(lines[1..], base + |lines[0]| + 1, next, low, high);
      } else {
        NoLines(next, base + |lines[0]| + 1);
        assert lines[1..] == [];
      }
    }
  }

  lemma BodyIsBounded(content: string, body: nat)
    requires body <= |content|
    ensures Bounded(ReadBody(content, body), body, |content|)
  {
    JoinSplit(content[body..]);
    ScanIsBounded(Split(content[body..]), body, EMPTY, body, |content|);
  }

  function Separator(content: string): string {
    if content == "" || content[|content| - 1] == '\n' then "" else "\n"
  }

  function Upserted(content: string, name: string, key: string, rendered: string): string {
    match FindBody(content, name, 0)
    case None => content + Separator(content) + name + ":\n" + NewLine("  ", key, rendered) + "\n"
    case Some(body) =>
      BodyIsBounded(content, body);
      var scan := ReadBody(content, body);
      if key in scan.children then
        content[..scan.children[key].valueStart] + rendered + content[scan.children[key].valueEnd..]
      else content[..body] + NewLine(ChildIndent(scan), key, rendered) + "\n" + content[body..]
  }

  /** Where the line around a position starts, and where the line after it does. */
  function LineStart(s: string, at: nat): (r: nat)
    requires at <= |s|
    ensures r <= at
  {
    if at == 0 || s[at - 1] == '\n' then at else LineStart(s, at - 1)
  }

  function NextLine(s: string, at: nat): (r: nat)
    requires at <= |s|
    ensures at <= r <= |s|
  {
    var feed := IndexOf(s, "\n", at);
    if feed == -1 then |s| else feed + 1
  }

  function Removed(content: string, name: string, key: string): string {
    match FindBody(content, name, 0)
    case None => content
    case Some(body) =>
      BodyIsBounded(content, body);
      var scan := ReadBody(content, body);
      if key !in scan.children then content
      else content[..LineStart(content, scan.children[key].valueStart)] + content[NextLine(content, scan.children[key].valueEnd)..]
  }

  method UpsertBlockChild(content: string, name: string, key: string, value: string, quote: bool)
    returns (r: string)
    ensures r == Upserted(content, name, key, Rendered(value, quote))
  {
    var rendered := Rendered(value, quote);
    var children, blockBodyStart, childIndent := ReadTopLevelBlock(content, name);
    if blockBodyStart.Some? {
      BodyIsBounded(content, blockBodyStart.value);
    }
    if key in children {
      return content[..children[key].valueStart] + rendered + content[children[key].valueEnd..];
    }
    if blockBodyStart.Some? {
      var insertion := NewLine(childIndent, key, rendered) + "\n";
      r := content[..blockBodyStart.value] + insertion + content[blockBodyStart.value..];
      assert r == Upserted(content, name, key, rendered);
      return;
    }
    return content + Separator(content) + name + ":\n" + NewLine("  ", key, rendered) + "\n";
  }

  method RemoveBlockChild(content: string, name: string, key: string) returns (r: string)
    ensures r == Removed(content, name, key)
  {
    var children, blockBodyStart, _ := ReadTopLevelBlock(content, name);
    if key !in children {
      return content;
    }
    BodyIsBounded(content, blockBodyStart.value);
    var lineStart := LineStart(content, children[key].valueStart);
    var lineEnd := NextLine(content, children[key].valueEnd);
    return content[..lineStart] + content[lineEnd..];
  }
}
