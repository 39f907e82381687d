/** Rewriting the MCP servers section of a config document for one server. */
module McpEdits {
  import opened McpConfig
  import opened McpScalars
  import opened Text
  import opened TextLines
  import opened Wrappers

  // ---------------------------------------------------------------------
  // Input
  // ---------------------------------------------------------------------

  datatype RawInput = RawInput(
    name: string,
    kind: string,
    url: string,
    command: string,
    args: seq<string>,
    env: seq<(string, string)>,
    auth: string)

  /** What validation lets through: the fields its transport writes. */
  datatype ServerInput =
    | HttpServer(name: string, url: string, auth: string)
    | StdioServer(name: string, command: string, args: seq<string>, env: seq<(string, string)>)

  datatype InputError = BadName | BadTransport | BadUrl | NoCommand | BadEnvName(name: string)

  predicate ValidName(name: string) {
    name != "" && NameStart(name[0]) && forall i :: 0 <= i < |name| ==> KeyChar(name[i])
  }

  predicate ValidEnvName(name: string) {
    name != "" && KeyStart(name[0]) && forall i :: 0 <= i < |name| ==> EnvChar(name[i])
  }

  predicate IsHttpUrl(url: string) {
    var l := Lower(url);
    "http://" <= l || "https://" <= l
  }

  /** An assignment to an entry of an object: a known key keeps its place. */
  function Assign(env: seq<(string, string)>, key: string, value: string): seq<(string, string)> {
    if env == [] then [(key, value)]
    else if env[0].0 == key then [(key, value)] + env[1..]
    else [env[0]] + Assign(env[1..], key, value)
  }

  function CheckEnv(entries: seq<(string, string)>, env: seq<(string, string)>): Result<seq<(string, string)>, InputError>
    decreases |entries|
  {
    if entries == [] then Ok(env)
    else
      var key := Trim(entries[0].0);
      if key == "" then CheckEnv(entries[1..], env)
      else if !ValidEnvName(key) then Err(BadEnvName(key))
      else CheckEnv(entries[1..], Assign(env, key, entries[0].1))
  }

  function Trimmed(args: seq<string>): seq<string> {
    if args == [] then [] else [Trim(args[0])] + Trimmed(args[1..])
  }

  function ValidateServerInput(input: RawInput): Result<ServerInput, InputError> {
    var name := Trim(input.name);
    if !ValidName(name) then Err(BadName)
    else if input.kind == "http" then
      var url := Trim(input.url);
      if IsHttpUrl(url) then Ok(HttpServer(name, url, input.auth)) else Err(BadUrl)
    else if input.kind == "stdio" then
      var command := Trim(input.command);
      if command == "" then Err(NoCommand)
      else
        match CheckEnv(input.env, [])
        case Err(e) => Err(e)
        case Ok(env) => Ok(StdioServer(name, command, NonEmpty(Trimmed(input.args)), env))
    else Err(BadTransport)
  }

  // ---------------------------------------------------------------------
  // Rendering
  // ---------------------------------------------------------------------

  function RenderedItems(args: seq<string>): seq<string> {
    if args == [] then [] else ["      - " + QuoteYamlScalar(args[0])] + RenderedItems(args[1..])
  }

  function RenderedEnv(env: seq<(string, string)>): seq<string> {
    if env == [] then []
    else ["      " + env[0].0 + ": " + QuoteYamlScalar(env[0].1)] + RenderedEnv(env[1..])
  }

  function NameLine(name: string): string {
    "  " + name + ":"
  }

  /** The lines of a server under its name line. */
  function RenderedFields(input: ServerInput): seq<string> {
    match input
    case HttpServer(_, url, auth) =>
      ["    url: " + QuoteYamlScalar(url)] + (if auth != "" then ["    auth: " + QuoteYamlScalar(auth)] else [])
    case StdioServer(_, command, args, env) =>
      ["    command: " + QuoteYamlScalar(command)]
        + (if args != [] then ["    args:"] + RenderedItems(args) else [])
        + (if env != [] then ["    env:"] + RenderedEnv(env) else [])
  }

  function Rendered(input: ServerInput): seq<string> {
    [NameLine(input.name)] + RenderedFields(input)
  }

  method RenderServerBlock(input: ServerInput) returns (lines: seq<string>)
    ensures lines == Rendered(input)
  {
    hide QuoteYamlScalar, RenderedItems, RenderedEnv, NameLine;
    lines := [NameLine(input.name)];
    if input.HttpServer? {
      lines := lines + ["    url: " + QuoteYamlScalar(input.url)];
      if input.auth != "" {
        lines := lines + ["    auth: " + QuoteYamlScalar(input.auth)];
      }
      return;
    }
    var fields := RenderStdio(input);
    lines := lines + fields;
  }

  method RenderStdio(input: ServerInput) returns (lines: seq<string>)
    requires input.StdioServer?
    ensures lines == RenderedFields(input)
  {
    hide QuoteYamlScalar, RenderedItems, RenderedEnv;
    lines := ["    command: " + QuoteYamlScalar(input.command)];
    if |input.args| > 0 {
      var items := RenderItems(input.args);
      lines := lines + (["    args:"] + items);
    }
    if |input.env| > 0 {
      var entries := RenderEnv(input.env);
      lines := lines + (["    env:"] + entries);
    }
  }

  method RenderItems(args: seq<string>) returns (lines: seq<string>)
    ensures lines == RenderedItems(args)
  {
    hide QuoteYamlScalar;
    lines := [];
    for i := 0 to |args|
      invariant lines + RenderedItems(args[i..]) == RenderedItems(args)
    {
      lines := lines + ["      - " + QuoteYamlScalar(args[i])];
    }
  }

  method RenderEnv(env: seq<(string, string)>) returns (lines: seq<string>)
    ensures lines == RenderedEnv(env)
  {
    hide QuoteYamlScalar;
    lines := [];
    for i := 0 to |env|
      invariant lines + RenderedEnv(env[i..]) == RenderedEnv(env)
    {
      lines := lines + ["      " + env[i].0 + ": " + QuoteYamlScalar(env[i].1)];
    }
  }

  // ---------------------------------------------------------------------
  // Upsert
  // ---------------------------------------------------------------------

  const SECTION := "mcp_servers:"

  function Flat(blocks: seq<ServerBlock>): seq<string> {
    if blocks == [] then [] else blocks[0].lines + Flat(blocks[1..])
  }

  predicate HasServer(blocks: seq<ServerBlock>, name: string) {
    exists i :: 0 <= i < |blocks| && blocks[i].name == name
  }

  /** The servers' lines with those of one name replaced. */
  function Replaced(blocks: seq<ServerBlock>, name: string, rendered: seq<string>): seq<string> {
    if blocks == [] then []
    else (if blocks[0].name == name then rendered else blocks[0].lines) + Replaced(blocks[1..], name, rendered)
  }

  /** A blank line keeps the section apart from the key that follows it. */
  function Gap(lines: seq<string>, end: nat): seq<string> {
    if end < |lines| && !Blank(lines[end]) then [""] else []
  }

  function LinesOf(content: string): seq<string> {
    if content == "" then [] else SplitLines(content)
  }

  function NewSection(blocks: seq<ServerBlock>, input: ServerInput): seq<string> {
    [SECTION] + Replaced(blocks, input.name, Rendered(input)) + (if HasServer(blocks, input.name) then [] else Rendered(input))
  }

  function UpsertedIn(lines: seq<string>, block: McpBlock, input: ServerInput): seq<string>
    requires block.startLine < block.endLine <= |lines|
  {
    lines[..block.startLine] + NewSection(BlocksOf(lines, block), input) + Gap(lines, block.endLine) + lines[block.endLine..]
  }

  function WithSection(lines: seq<string>, input: ServerInput): seq<string> {
    var prefix := if lines != [] && lines[|lines| - 1] == "" then lines[..|lines| - 1] else lines;
    prefix + (if prefix != [] then [""] else []) + [SECTION] + Rendered(input) + [""]
  }

  function UpsertedLines(content: string, input: ServerInput): seq<string> {
    match FindMcpBlock(SplitLines(content))
    case None => WithSection(LinesOf(content), input)
    case Some(block) => UpsertedIn(SplitLines(content), block, input)
  }

  /** The loop that writes the section anew. */
  lemma ReplacedFrom(blocks: seq<ServerBlock>, i: nat, name: string, rendered: seq<string>)
    requires i < |blocks|
    ensures Replaced(blocks[i..], name, rendered)
      == (if blocks[i].name == name then rendered else blocks[i].lines) + Replaced(blocks[i + 1..], name, rendered)
  {
    assert blocks[i..][1..] == blocks[i + 1..];
  }

  method RewriteSection(blocks: seq<ServerBlock>, input: ServerInput, rendered: seq<string>) returns (next: seq<string>)
    requires rendered == Rendered(input)
    ensures next == NewSection(blocks, input)
  {
    hide Rendered, Replaced;
    next := [SECTION];
    var replaced := false;
    assert blocks[0..] == blocks;
    for i := 0 to |blocks|
      invariant next + Replaced(blocks[i..], input.name, rendered) == [SECTION] + Replaced(blocks, input.name, rendered)
      invariant replaced <==> exists j :: 0 <= j < i && blocks[j].name == input.name
    {
      ReplacedFrom(blocks, i, input.name, rendered);
      Assoc(
        next, if blocks[i].name == input.name then rendered else blocks[i].lines,
        Replaced(blocks[i + 1..], input.name, rendered));
      if blocks[i].name == input.name {
        next := next + rendered;
        replaced := true;
      } else {
        next := next + blocks[i].lines;
      }
    }
    NothingReplaced(blocks, input.name, rendered);
    if !replaced {
      next := next + rendered;
    }
  }

  lemma NothingReplaced(blocks: seq<ServerBlock>, name: string, rendered: seq<string>)
    ensures Replaced(blocks[|blocks|..], name, rendered) == []
  {
  }

  method UpsertMcpServerInConfig(content: string, input: ServerInput) returns (r: string)
    ensures r == Join(UpsertedLines(content, input))
  {
    hide NewSection, Rendered, Join, FindMcpBlock, ServerBlocks;
    var lines := SplitLines(content);
    var block := FindBlock(lines);
    var rendered := RenderServerBlock(input);
    if block.None? {
      return Join(WithSection(LinesOf(content), input));
    }
    var b := block.value;
    var blocks := GroupServers(lines[b.startLine..b.endLine]);
    assert lines[b.startLine..b.endLine][1..] == lines[b.startLine + 1..b.endLine];
    var next := RewriteSection(blocks, input, rendered);
    return Join(lines[..b.startLine] + next + Gap(lines, b.endLine) + lines[b.endLine..]);
  }

  // ---------------------------------------------------------------------
  // Remove
  // ---------------------------------------------------------------------

  function Without(blocks: seq<ServerBlock>, name: string): (r: seq<ServerBlock>)
    ensures |r| <= |blocks|
  {
    if blocks == [] then []
    else (if blocks[0].name != name then [blocks[0]] else []) + Without(blocks[1..], name)
  }

  /** Three or more line feeds in a row become two. */
  function CollapseFeeds(s: string): string {
    if s == [] then []
    else if "\n\n\n" <= s then CollapseFeeds(s[1..])
    else [s[0]] + CollapseFeeds(s[1..])
  }

  function RemovedIn(lines: seq<string>, block: McpBlock, name: string): seq<string>
    requires block.startLine < block.endLine <= |lines|
  {
    var remaining := Without(BlocksOf(lines, block), name);
    if remaining == [] then lines[..block.startLine] + lines[block.endLine..]
    else
      lines[..block.startLine] + ([SECTION] + Flat(remaining)) + Gap(lines, block.endLine) + lines[block.endLine..]
  }

  function Removed(content: string, name: string): string {
    var lines := SplitLines(content);
    match FindMcpBlock(lines)
    case None => content
    case Some(block) =>
      var blocks := BlocksOf(lines, block);
      if |Without(blocks, name)| == |blocks| then content
      else CollapseFeeds(Join(RemovedIn(lines, block, name)))
  }

  method RemoveMcpServerFromConfig(content: string, name: string) returns (r: string)
    ensures r == Removed(content, name)
  {
    hide Join, FindMcpBlock, ServerBlocks, CollapseFeeds;
    var lines := SplitLines(content);
    var block := FindBlock(lines);
    if block.None? {
      return content;
    }
    var b := block.value;
    var blocks := GroupServers(lines[b.startLine..b.endLine]);
    assert lines[b.startLine..b.endLine][1..] == lines[b.startLine + 1..b.endLine];
    var remaining := Without(blocks, name);
    if |remaining| == |blocks| {
      return content;
    }
    if remaining == [] {
      return CollapseFeeds(Join(lines[..b.startLine] + lines[b.endLine..]));
    }
    var next := [SECTION] + Flat(remaining);
    return CollapseFeeds(Join(lines[..b.startLine] + next + Gap(lines, b.endLine) + lines[b.endLine..]));
  }
}
