/**
 * The MCP servers section of a config document: finding it line by line,
 * reading its servers, and rewriting it for one server at a time.
 */
module McpConfig {
  import opened McpScalars
  import opened Text
  import opened TextLines
  import opened Wrappers

  const HEADER := "mcp_servers"

  // ---------------------------------------------------------------------
  // Shapes of lines
  // ---------------------------------------------------------------------

  /** Where the text behind a colon begins, whitespace around the colon left out. */
  function AfterColon(line: string, from: nat): (r: Option<nat>)
    requires from <= |line|
    ensures r.Some? ==> from < r.value <= |line|
  {
    var colon := SpaceEnd(line, from);
    if colon < |line| && line[colon] == ':' then Some(SpaceEnd(line, colon + 1)) else None
  }

  predicate NothingOrComment(line: string, at: nat)
    requires at <= |line|
  {
    at == |line| || (line[at] == '#' && OneLine(line[at..]))
  }

  predicate IsMcpHeader(line: string) {
    var t := TrimEnd(line);
    && HEADER <= t
    && var after := AfterColon(t, |HEADER|);
       after.Some? && NothingOrComment(t, after.value)
  }

  /** A line at column 0 that opens another top-level key. */
  predicate EndsBlock(line: string) {
    && !Blank(line)
    && TrimStart(line)[0] != '#'
    && !IsSpace(line[0])
    && exists j :: 1 <= j < |line| && line[j] == ':'
  }

  predicate NameStart(c: char) {
    (KeyStart(c) && c != '_') || '0' <= c <= '9'
  }

  /** The server a line opens: two spaces, a name, a colon. */
  function ServerName(line: string): (r: Option<string>)
  {
    if !("  " <= line) || |line| == 2 || !NameStart(line[2]) then None
    else
      var end := KeyEnd(line, 2);
      var after := AfterColon(line, end);
      if after.Some? && NothingOrComment(line, after.value) then Some(line[2..end]) else None
  }

  /** A field of a server: four spaces, a key, a colon, the rest of the line. */
  function FieldLine(line: string): Option<(string, string)> {
    if !("    " <= line) || |line| == 4 || !KeyStart(line[4]) then None
    else
      var end := KeyEnd(line, 4);
      var after := AfterColon(line, end);
      if after.Some? && OneLine(line[after.value..]) then Some((line[4..end], line[after.value..])) else None
  }

  function ItemLine(line: string): Option<string> {
    if !("      -" <= line) then None
    else
      var after := SpaceEnd(line, 7);
      if OneLine(line[after..]) then Some(line[after..]) else None
  }

  predicate EnvChar(c: char) {
    KeyStart(c) || '0' <= c <= '9'
  }

  function EnvKeyEnd(s: string, from: nat): (r: nat)
    requires from <= |s|
    ensures from <= r <= |s|
    ensures forall i :: from <= i < r ==> EnvChar(s[i])
    ensures r < |s| ==> !EnvChar(s[r])
    decreases |s| - from
  {
    if from < |s| && EnvChar(s[from]) then EnvKeyEnd(s, from + 1) else from
  }

  function EnvLine(line: string): Option<(string, string)> {
    if !("      " <= line) || |line| == 6 || !KeyStart(line[6]) then None
    else
      var end := EnvKeyEnd(line, 6);
      var after := AfterColon(line, end);
      if after.Some? && OneLine(line[after.value..]) then Some((line[6..end], line[after.value..])) else None
  }

  // ---------------------------------------------------------------------
  // Reading a server
  // ---------------------------------------------------------------------

  datatype Tools = NoTools | EmptyTools | NamedTools(text: string)

  datatype Fields = Fields(
    url: Option<string>,
    command: Option<string>,
    args: seq<string>,
    env: map<string, string>,
    auth: Option<string>,
    enabled: Option<bool>,
    tools: Tools)

  const NO_FIELDS := Fields(None, None, [], map[], None, None, NoTools)

  function LowerChar(c: char): char {
    if 'A' <= c <= 'Z' then c - 'A' + 'a' else c
  }

  function Lower(s: string): string {
    if s == [] then [] else [LowerChar(s[0])] + Lower(s[1..])
  }

  /** The leading lines that are list items. */
  function Items(lines: seq<string>): (r: seq<string>)
    ensures |r| <= |lines|
  {
    if lines == [] || ItemLine(lines[0]).None? then []
    else [ParsedScalar(ItemLine(lines[0]).value)] + Items(lines[1..])
  }

  /** The leading lines that are environment entries. */
  function EnvLines(lines: seq<string>): (n: nat)
    ensures n <= |lines|
  {
    if lines == [] || EnvLine(lines[0]).None? then 0 else 1 + EnvLines(lines[1..])
  }

  function EnvOf(lines: seq<string>, env: map<string, string>): map<string, string>
    decreases |lines|
  {
    if lines == [] || EnvLine(lines[0]).None? then env
    else EnvOf(lines[1..], env[EnvLine(lines[0]).value.0 := ParsedScalar(EnvLine(lines[0]).value.1)])
  }

  predicate OpensInlineList(raw: string) {
    var t := Trim(raw);
    t != "" && t[0] == '['
  }

  /** One field, with the lines under it: the new fields and how many of those lines it took. */
  function ReadField(key: string, raw: string, under: seq<string>, fields: Fields): (r: (Fields, nat))
    ensures r.1 <= |under|
  {
    if key == "url" then (fields.(url := Some(ParsedScalar(raw))), 0)
    else if key == "command" then (fields.(command := Some(ParsedScalar(raw))), 0)
    else if key == "auth" then (fields.(auth := Some(ParsedScalar(raw))), 0)
    else if key == "enabled" then (fields.(enabled := Some(Lower(Trim(raw)) != "false")), 0)
    else if key == "args" then
      if OpensInlineList(raw) then (fields.(args := ParsedInlineList(raw)), 0)
      else (fields.(args := Items(under)), |Items(under)|)
    else if key == "env" && Blank(raw) then (fields.(env := EnvOf(under, map[])), EnvLines(under))
    else if key == "tools" then (fields.(tools := if Blank(raw) then EmptyTools else NamedTools(ParsedScalar(raw))), 0)
    else (fields, 0)
  }

  function ReadFields(lines: seq<string>, fields: Fields): Fields
    decreases |lines|
  {
    if lines == [] then fields
    else
      match FieldLine(lines[0])
      case None => ReadFields(lines[1..], fields)
      case Some((key, raw)) =>
        var (next, taken) := ReadField(key, raw, lines[1..], fields);
        ReadFields(lines[1 + taken..], next)
  }

  method ParseItems(lines: seq<string>) returns (args: seq<string>)
    ensures args == Items(lines)
  {
    args := [];
    var j := 0;
    while j < |lines| && ItemLine(lines[j]).Some?
      invariant 0 <= j <= |lines|
      invariant args + Items(lines[j..]) == Items(lines)
    {
      var item := ParseYamlScalar(ItemLine(lines[j]).value);
      args := args + [item];
      j := j + 1;
    }
  }

  method ParseEnv(lines: seq<string>) returns (env: map<string, string>, taken: nat)
    ensures env == EnvOf(lines, map[]) && taken == EnvLines(lines)
  {
    env := map[];
    taken := 0;
    while taken < |lines| && EnvLine(lines[taken]).Some?
      invariant 0 <= taken <= |lines|
      invariant EnvOf(lines[taken..], env) == EnvOf(lines, map[])
      invariant taken + EnvLines(lines[taken..]) == EnvLines(lines)
    {
      var entry := EnvLine(lines[taken]).value;
      var value := ParseYamlScalar(entry.1);
      env := env[entry.0 := value];
      taken := taken + 1;
    }
  }

  /** The field at a line, as the loop over a server's lines reads it. */
  method ParseField(key: string, raw: string, under: seq<string>, fields: Fields) returns (r: Fields, taken: nat)
    ensures (r, taken) == ReadField(key, raw, under, fields)
  {
    r, taken := fields, 0;
    if key == "url" {
      var value := ParseYamlScalar(raw);
      r := fields.(url := Some(value));
    } else if key == "command" {
      var value := ParseYamlScalar(raw);
      r := fields.(command := Some(value));
    } else if key == "auth" {
      var value := ParseYamlScalar(raw);
      r := fields.(auth := Some(value));
    } else if key == "enabled" {
      r := fields.(enabled := Some(Lower(Trim(raw)) != "false"));
    } else if key == "args" {
      if OpensInlineList(raw) {
        var args := ParseInlineList(raw);
        r := fields.(args := args);
      } else {
        var args := ParseItems(under);
        r := fields.(args := args);
        taken := |args|;
      }
    } else if key == "env" && Blank(raw) {
      var env, n := ParseEnv(under);
      r := fields.(env := env);
      taken := n;
    } else if key == "tools" {
      if Blank(raw) {
        r := fields.(tools := EmptyTools);
      } else {
        var value := ParseYamlScalar(raw);
        r := fields.(tools := NamedTools(value));
      }
    }
  }

  method ParseServerBlock(lines: seq<string>) returns (result: Fields)
    requires lines != []
    ensures result == ReadFields(lines[1..], NO_FIELDS)
  {
    hide FieldLine, ReadField;
    result := NO_FIELDS;
    var i := 1;
    while i < |lines|
      invariant 1 <= i <= |lines|
      invariant ReadFields(lines[i..], result) == ReadFields(lines[1..], NO_FIELDS)
    {
      var rest := lines[i..];
      assert rest[1..] == lines[i + 1..];
      var field := FieldLine(lines[i]);
      if field.None? {
        i := i + 1;
        continue;
      }
      var taken: nat;
      result, taken := ParseField(field.value.0, field.value.1, lines[i + 1..], result);
      assert rest[1 + taken..] == lines[i + 1 + taken..];
      i := i + 1 + taken;
    }
  }

  // ---------------------------------------------------------------------
  // Finding the section and its servers
  // ---------------------------------------------------------------------

  function DropReturn(line: string): string {
    if line != "" && line[|line| - 1] == '\r' then line[..|line| - 1] else line
  }

  /** Lines as split at a line feed with an optional carriage return before it. */
  function SplitLines(content: string): (lines: seq<string>)
    ensures AreLines(lines) && |lines| == |Split(content)|
  {
    var l := Split(content);
    seq(|l|, i requires 0 <= i < |l| => if i < |l| - 1 then DropReturn(l[i]) else l[i])
  }

  function FindHeader(lines: seq<string>, from: nat): (r: int)
    requires from <= |lines|
    ensures r == -1 || from <= r < |lines|
    ensures r == -1 ==> forall i :: from <= i < |lines| ==> !IsMcpHeader(lines[i])
    ensures r >= 0 ==> IsMcpHeader(lines[r]) && forall i :: from <= i < r ==> !IsMcpHeader(lines[i])
    decreases |lines| - from
  {
    if from == |lines| then -1 else if IsMcpHeader(lines[from]) then from else FindHeader(lines, from + 1)
  }

  /** How many leading lines belong to the section. */
  function BlockLength(lines: seq<string>): (n: nat)
    ensures n <= |lines|
    ensures forall i :: 0 <= i < n ==> !EndsBlock(lines[i])
    ensures n < |lines| ==> EndsBlock(lines[n])
  {
    if lines == [] || EndsBlock(lines[0]) then 0 else 1 + BlockLength(lines[1..])
  }

  datatype McpBlock = McpBlock(startLine: nat, endLine: nat)

  function FindMcpBlock(lines: seq<string>): (r: Option<McpBlock>)
    ensures r.Some? ==> r.value.startLine < r.value.endLine <= |lines|
  {
    var start := FindHeader(lines, 0);
    if start == -1 then None else Some(McpBlock(start, start + 1 + BlockLength(lines[start + 1..])))
  }

  method FindBlock(lines: seq<string>) returns (r: Option<McpBlock>)
    ensures r == FindMcpBlock(lines)
  {
    hide IsMcpHeader, EndsBlock;
    var startLine := FindHeader(lines, 0);
    if startLine < 0 {
      return None;
    }
    var i := startLine + 1;
    while i < |lines| && !EndsBlock(lines[i])
      invariant startLine < i <= |lines|
      invariant i - startLine - 1 + BlockLength(lines[i..]) == BlockLength(lines[startLine + 1..])
    {
      i := i + 1;
    }
    return Some(McpBlock(startLine, i));
  }

  datatype ServerBlock = ServerBlock(name: string, lines: seq<string>, startOffset: nat)

  /** How many leading lines open no server. */
  function InnerLength(lines: seq<string>): (n: nat)
    ensures n <= |lines|
    ensures forall i :: 0 <= i < n ==> ServerName(lines[i]).None?
    ensures n < |lines| ==> ServerName(lines[n]).Some?
  {
    if lines == [] || ServerName(lines[0]).Some? then 0 else 1 + InnerLength(lines[1..])
  }

  function DropBlankEnd(lines: seq<string>): (r: seq<string>)
    ensures r <= lines
    ensures r != [] ==> !Blank(r[|r| - 1])
    ensures forall i :: |r| <= i < |lines| ==> Blank(lines[i])
  {
    if lines != [] && Blank(lines[|lines| - 1]) then DropBlankEnd(lines[..|lines| - 1]) else lines
  }

  /** The servers in the lines of a section, each without the blank lines at its end. */
  function ServerBlocks(lines: seq<string>, offset: nat): (r: seq<ServerBlock>)
    ensures forall b :: b in r ==> b.lines != []
    decreases |lines|
  {
    if lines == [] then []
    else
      match ServerName(lines[0])
      case None => ServerBlocks(lines[1..], offset + 1)
      case Some(name) =>
        var n := InnerLength(lines[1..]);
        [ServerBlock(name, [lines[0]] + DropBlankEnd(lines[1..1 + n]), offset)]
          + ServerBlocks(lines[1 + n..], offset + 1 + n)
  }

  /** A server being read, before the blank lines at its end are dropped. */
  function Closed(current: Option<ServerBlock>): seq<ServerBlock>
    requires current.Some? ==> current.value.lines != []
  {
    match current
    case None => []
    case Some(b) => [ServerBlock(b.name, [b.lines[0]] + DropBlankEnd(b.lines[1..]), b.startOffset)]
  }

  /** What the rest of a section gives, with a server already being read. */
  function BlocksFrom(current: Option<ServerBlock>, lines: seq<string>, offset: nat): seq<ServerBlock>
    requires current.Some? ==> current.value.lines != []
  {
    match current
    case None => ServerBlocks(lines, offset)
    case Some(b) =>
      var n := InnerLength(lines);
      Closed(Some(b.(lines := b.lines + lines[..n]))) + ServerBlocks(lines[n..], offset + n)
  }

  lemma HeaderLine(name: string, lines: seq<string>, offset: nat)
    requires lines != [] && ServerName(lines[0]) == Some(name)
    ensures ServerBlocks(lines, offset) == BlocksFrom(Some(ServerBlock(name, [lines[0]], offset)), lines[1..], offset + 1)
  {
    hide ServerName, DropBlankEnd;
    var rest := lines[1..];
    var n := InnerLength(rest);
    assert lines[1 + n..] == rest[n..] && lines[1..1 + n] == rest[..n];
    assert ([lines[0]] + rest[..n])[1..] == rest[..n];
  }

  lemma InnerLine(b: ServerBlock, lines: seq<string>, offset: nat)
    requires b.lines != [] && lines != [] && ServerName(lines[0]).None?
    ensures BlocksFrom(Some(b), lines, offset)
      == BlocksFrom(Some(b.(lines := b.lines + [lines[0]])), lines[1..], offset + 1)
  {
    hide ServerName, DropBlankEnd, ServerBlocks, Closed;
    var rest := lines[1..];
    var n := InnerLength(rest);
    assert InnerLength(lines) == n + 1;
    assert lines[n + 1..] == rest[n..];
    assert b.lines + lines[..n + 1] == b.lines + [lines[0]] + rest[..n];
  }

  lemma BlockCloses(b: ServerBlock, lines: seq<string>, offset: nat)
    requires b.lines != [] && lines != [] && ServerName(lines[0]).Some?
    ensures BlocksFrom(Some(b), lines, offset) == Closed(Some(b)) + ServerBlocks(lines, offset)
  {
    hide ServerName, DropBlankEnd, ServerBlocks, Closed;
    assert InnerLength(lines) == 0;
    assert b.lines + lines[..0] == b.lines;
    assert lines[0..] == lines;
  }

  lemma NextLineOfBlock(current: Option<ServerBlock>, lines: seq<string>, offset: nat)
    requires current.Some? ==> current.value.lines != []
    requires lines != []
    ensures
      BlocksFrom(current, lines, offset)
        == match ServerName(lines[0])
           case Some(name) => Closed(current) + BlocksFrom(Some(ServerBlock(name, [lines[0]], offset)), lines[1..], offset + 1)
           case None =>
             BlocksFrom(
               if current.Some? then Some(current.value.(lines := current.value.lines + [lines[0]])) else None,
               lines[1..], offset + 1)
  {
    hide ServerName, DropBlankEnd;
    if ServerName(lines[0]).Some? {
      HeaderLine(ServerName(lines[0]).value, lines, offset);
      if current.Some? {
        BlockCloses(current.value, lines, offset);
      }
    } else if current.Some? {
      InnerLine(current.value, lines, offset);
    }
  }

  /** The loop that groups a section's lines into servers. */
  method GroupServers(lines: seq<string>) returns (blocks: seq<ServerBlock>)
    requires lines != []
    ensures blocks == ServerBlocks(lines[1..], 1)
  {
    hide ServerName, DropBlankEnd, ServerBlocks, BlocksFrom, Closed, InnerLength;
    blocks := [];
    var current: Option<ServerBlock> := None;
    var i := 1;
    NothingOpen(lines[1..], 1);
    while i < |lines|
      invariant 1 <= i <= |lines|
      invariant current.Some? ==> current.value.lines != []
      invariant blocks + BlocksFrom(current, lines[i..], i) == ServerBlocks(lines[1..], 1)
    {
      var line := lines[i];
      assert lines[i..][1..] == lines[i + 1..];
      NextLineOfBlock(current, lines[i..], i);
      var name := ServerName(line);
      if name.Some? {
        Assoc(blocks, Closed(current), BlocksFrom(Some(ServerBlock(name.value, [line], i)), lines[i + 1..], i + 1));
        blocks := blocks + Closed(current);
        current := Some(ServerBlock(name.value, [line], i));
      } else if current.Some? {
        current := Some(current.value.(lines := current.value.lines + [line]));
      }
      i := i + 1;
    }
    NoLinesLeft(current, i);
    assert lines[i..] == [];
    blocks := blocks + Closed(current);
  }

  lemma Assoc<T>(a: seq<T>, b: seq<T>, c: seq<T>)
    ensures a + (b + c) == a + b + c
  {
  }

  lemma NothingOpen(lines: seq<string>, offset: nat)
    ensures [] + BlocksFrom(None, lines, offset) == ServerBlocks(lines, offset)
  {
    hide ServerBlocks;
  }

  lemma NoLinesLeft(current: Option<ServerBlock>, offset: nat)
    requires current.Some? ==> current.value.lines != []
    ensures BlocksFrom(current, [], offset) == Closed(current)
  {
    if current.Some? {
      assert current.value.lines + [] == current.value.lines;
    }
  }

  function BlocksOf(lines: seq<string>, block: McpBlock): seq<ServerBlock>
    requires block.startLine < block.endLine <= |lines|
  {
    ServerBlocks(lines[block.startLine + 1..block.endLine], 1)
  }

  // ---------------------------------------------------------------------
  // What a reader of the document gets
  // ---------------------------------------------------------------------

  datatype Transport = Http | Stdio | Unknown

  datatype ServerInfo = ServerInfo(name: string, transport: Transport, enabled: bool, detail: string, fields: Fields)

  predicate Truthy(s: Option<string>) {
    s.Some? && s.value != ""
  }

  function InfoOf(name: string, fields: Fields): ServerInfo {
    ServerInfo(
      name,
      if Truthy(fields.url) then Http else if Truthy(fields.command) then Stdio else Unknown,
      fields.enabled != Some(false),
      if Truthy(fields.url) then fields.url.value else if Truthy(fields.command) then fields.command.value else "",
      fields)
  }

  function BlockInfo(block: ServerBlock): ServerInfo
    requires block.lines != []
  {
    InfoOf(block.name, ReadFields(block.lines[1..], NO_FIELDS))
  }

  function Infos(blocks: seq<ServerBlock>): (r: seq<ServerInfo>)
    requires forall b :: b in blocks ==> b.lines != []
    ensures |r| == |blocks|
  {
    if blocks == [] then [] else [BlockInfo(blocks[0])] + Infos(blocks[1..])
  }

  function ServersIn(lines: seq<string>): seq<ServerInfo> {
    match FindMcpBlock(lines)
    case None => []
    case Some(block) => Infos(BlocksOf(lines, block))
  }

  function ParseMcpServersFromConfig(content: string): seq<ServerInfo> {
    ServersIn(SplitLines(content))
  }
}
