/** Scalars of the MCP section: how strings are quoted, and how a written value is read. */
module McpScalars {
  import opened Text

  // ---------------------------------------------------------------------
  // Writing
  // ---------------------------------------------------------------------

  function ReplaceChar(s: string, c: char, insert: string): string {
    if s == [] then [] else (if s[0] == c then insert else [s[0]]) + ReplaceChar(s[1..], c, insert)
  }

  /** Backslashes are doubled first, then quotes get one. */
  function Escaped(value: string): string {
    ReplaceChar(ReplaceChar(value, '\\', "\\\\"), '"', "\\\"")
  }

  function QuoteYamlScalar(value: string): string {
    "\"" + Escaped(value) + "\""
  }

  // ---------------------------------------------------------------------
  // Reading
  // ---------------------------------------------------------------------

  /** What stands between double quotes, from behind the opening one to the closing one or the end. */
  function DoubleQuoted(s: string): string {
    if s == [] then []
    else if s[0] == '\\' && |s| > 1 then [s[1]] + DoubleQuoted(s[2..])
    else if s[0] == '"' then []
    else [s[0]] + DoubleQuoted(s[1..])
  }

  /** The first whitespace run that a comment sign follows, or -1. */
  function CommentAt(s: string, from: nat): (r: int)
    requires from <= |s|
    ensures r == -1 || from <= r < |s|
    decreases |s| - from
  {
    if from == |s| then -1
    else if IsSpace(s[from]) && SpaceEnd(s, from) < |s| && s[SpaceEnd(s, from)] == '#' then from
    else CommentAt(s, from + 1)
  }

  function ParsedScalar(raw: string): string {
    var value := Trim(raw);
    if value == "" then ""
    else if value[0] == '"' then DoubleQuoted(value[1..])
    else if value[0] == '\'' then
      var end := IndexOf(value, "'", 1);
      if end >= 0 then value[1..end] else value[1..]
    else
      var comment := CommentAt(value, 0);
      Trim(if comment >= 0 then value[..comment] else value)
  }

  lemma QuotedStep(value: string, i: nat)
    requires i < |value|
    ensures DoubleQuoted(value[i..])
      == if value[i] == '\\' && i + 1 < |value| then [value[i + 1]] + DoubleQuoted(value[i + 2..])
         else if value[i] == '"' then []
         else [value[i]] + DoubleQuoted(value[i + 1..])
  {
    var s := value[i..];
    assert s[1..] == value[i + 1..];
    assert |s| > 1 ==> s[2..] == value[i + 2..];
  }

  method ReadDoubleQuoted(value: string) returns (out: string)
    requires value != ""
    ensures out == DoubleQuoted(value[1..])
  {
    hide DoubleQuoted;
    out := "";
    var i := 1;
    while i < |value|
      invariant 1 <= i <= |value|
      invariant out + DoubleQuoted(value[i..]) == DoubleQuoted(value[1..])
    {
      QuotedStep(value, i);
      var ch := value[i];
      if ch == '\\' && i + 1 < |value| {
        out := out + [value[i + 1]];
        i := i + 2;
      } else if ch == '"' {
        return;
      } else {
        out := out + [ch];
        i := i + 1;
      }
    }
    NothingQuoted(value);
  }

  lemma NothingQuoted(value: string)
    ensures DoubleQuoted(value[|value|..]) == []
  {
  }

  method ParseYamlScalar(raw: string) returns (r: string)
    ensures r == ParsedScalar(raw)
  {
    hide DoubleQuoted;
    var value := Trim(raw);
    if value == "" {
      return "";
    }
    if value[0] == '"' {
      r := ReadDoubleQuoted(value);
      return;
    }
    if value[0] == '\'' {
      var end := IndexOf(value, "'", 1);
      return if end >= 0 then value[1..end] else value[1..];
    }
    var commentIdx := CommentAt(value, 0);
    if commentIdx >= 0 {
      value := value[..commentIdx];
    }
    return Trim(value);
  }

  /** A scan of an inline list: finished items, the item at hand, the open quote, a pending escape. */
  datatype ListScan = ListScan(items: seq<string>, current: string, quote: string, escaped: bool)

  function ScanChar(st: ListScan, ch: char): ListScan {
    if st.escaped then st.(current := st.current + [ch], escaped := false)
    else if st.quote != "" && ch == '\\' then st.(escaped := true)
    else if st.quote != "" then (if st.quote == [ch] then st.(quote := "") else st.(current := st.current + [ch]))
    else if ch == '"' || ch == '\'' then st.(quote := [ch])
    else if ch == ',' then st.(items := st.items + [Trim(st.current)], current := "")
    else st.(current := st.current + [ch])
  }

  function ScanList(st: ListScan, body: string): ListScan {
    if body == [] then st else ScanChar(ScanList(st, body[..|body| - 1]), body[|body| - 1])
  }

  function NonEmpty(items: seq<string>): seq<string> {
    if items == [] then [] else (if items[0] != "" then [items[0]] else []) + NonEmpty(items[1..])
  }

  function ParsedInlineList(raw: string): seq<string> {
    var value := Trim(raw);
    if value == "" || value[0] != '[' || value[|value| - 1] != ']' then []
    else
      var body := Trim(value[1..|value| - 1]);
      if body == "" then []
      else
        var st := ScanList(ListScan([], "", "", false), body);
        NonEmpty(st.items + [Trim(st.current)])
  }

  method ParseInlineList(raw: string) returns (items: seq<string>)
    ensures items == ParsedInlineList(raw)
  {
    var value := Trim(raw);
    if value == "" || value[0] != '[' || value[|value| - 1] != ']' {
      return [];
    }
    var body := Trim(value[1..|value| - 1]);
    if body == "" {
      return [];
    }
    var st := ListScan([], "", "", false);
    for i := 0 to |body|
      invariant st == ScanList(ListScan([], "", "", false), body[..i])
    {
      assert body[..i + 1][..i] == body[..i];
      st := ScanChar(st, body[i]);
    }
    assert body[..|body|] == body;
    return NonEmpty(st.items + [Trim(st.current)]);
  }

  // ---------------------------------------------------------------------
  // Round trip
  // ---------------------------------------------------------------------

  lemma {:induction false} ReplaceAppend(a: string, b: string, c: char, insert: string)
    ensures ReplaceChar(a + b, c, insert) == ReplaceChar(a, c, insert) + ReplaceChar(b, c, insert)
  {
    if a == [] {
      assert a + b == b;
    } else {
      assert (a + b)[1..] == a[1..] + b;
      ReplaceAppend(a[1..], b, c, insert);
    }
  }

  lemma ReplaceOne(x: char, c: char, insert: string)
    ensures ReplaceChar([x], c, insert) == if x == c then insert else [x]
  {
    assert ReplaceChar([x][1..], c, insert) == [];
  }

  function EscapedChar(c: char): string {
    if c == '\\' then "\\\\" else if c == '"' then "\\\"" else [c]
  }

  lemma EscapedCons(c: char, t: string)
    ensures Escaped([c] + t) == EscapedChar(c) + Escaped(t)
  {
    ReplaceAppend([c], t, '\\', "\\\\");
    ReplaceOne(c, '\\', "\\\\");
    var first := ReplaceChar([c], '\\', "\\\\");
    ReplaceAppend(first, ReplaceChar(t, '\\', "\\\\"), '"', "\\\"");
    if c == '\\' {
      assert first == ['\\'] + ['\\'];
      ReplaceAppend(['\\'], ['\\'], '"', "\\\"");
      ReplaceOne('\\', '"', "\\\"");
    } else {
      ReplaceOne(c, '"', "\\\"");
    }
  }

  /** Reading stops at the first quote that was not escaped, with the value complete. */
  lemma {:induction false} EscapedReads(value: string, rest: string)
    ensures DoubleQuoted(Escaped(value) + "\"" + rest) == value
  {
    if value == [] {
      assert Escaped(value) + "\"" + rest == "\"" + rest;
    } else {
      var c, t := value[0], value[1..];
      EscapedReads(t, rest);
      assert value == [c] + t;
      EscapedCons(c, t);
      QuotedCons(c, Escaped(t) + "\"" + rest);
      assert Escaped(value) + "\"" + rest == EscapedChar(c) + (Escaped(t) + "\"" + rest);
    }
  }

  lemma QuotedCons(c: char, s: string)
    ensures DoubleQuoted(EscapedChar(c) + s) == [c] + DoubleQuoted(s)
  {
    var e := EscapedChar(c);
    assert (e + s)[|e|..] == s;
  }

  /** Every string comes back from its quoted form. */
  lemma ScalarRoundTrip(value: string)
    ensures ParsedScalar(QuoteYamlScalar(value)) == value
  {
    hide Escaped, DoubleQuoted, Trim, TrimStart, TrimEnd, CommentAt, IndexOf;
    var q := QuoteYamlScalar(value);
    assert q[0] == '"' && q[|q| - 1] == '"';
    TrimKeeps(q);
    EscapedReads(value, "");
    assert q[1..] == Escaped(value) + "\"" + "";
  }

  lemma {:induction false} ReplaceKeepsOneLine(s: string, c: char, insert: string)
    requires OneLine(s) && OneLine(insert)
    ensures OneLine(ReplaceChar(s, c, insert))
  {
    if s != [] {
      ReplaceKeepsOneLine(s[1..], c, insert);
    }
  }

  lemma QuotedIsOneLine(value: string)
    requires OneLine(value)
    ensures OneLine(QuoteYamlScalar(value))
  {
    ReplaceKeepsOneLine(value, '\\', "\\\\");
    ReplaceKeepsOneLine(ReplaceChar(value, '\\', "\\\\"), '"', "\\\"");
  }
}
