/** Reading a config document after a server was written into it. */
module McpUpsertLaws {
  import opened McpConfig
  import opened McpEdits
  import opened McpLaws
  import opened McpRejoin
  import opened McpScalars
  import opened Text
  import opened TextLines
  import opened Wrappers

  // ---------------------------------------------------------------------
  // The meant result
  // ---------------------------------------------------------------------

  predicate HasInfo(infos: seq<ServerInfo>, name: string) {
    exists i :: 0 <= i < |infos| && infos[i].name == name
  }

  function ReplacedInfos(infos: seq<ServerInfo>, info: ServerInfo): (r: seq<ServerInfo>)
    ensures |r| == |infos|
    ensures forall i :: 0 <= i < |infos| ==> r[i] == if infos[i].name == info.name then info else infos[i]
  {
    seq(|infos|, i requires 0 <= i < |infos| => if infos[i].name == info.name then info else infos[i])
  }

  /** The servers with one written: in its place if there is one of that name, else at the end. */
  function UpsertedInfos(infos: seq<ServerInfo>, info: ServerInfo): seq<ServerInfo> {
    ReplacedInfos(infos, info) + if HasInfo(infos, info.name) then [] else [info]
  }

  /** What a reader is meant to see of a server: its transport by its kind, and the one string that says where it is. */
  function InfoFor(input: ServerInput): ServerInfo {
    match input
    case HttpServer(name, url, _) => ServerInfo(name, if url != "" then Http else Unknown, true, url, FieldsOf(input))
    case StdioServer(name, command, _, _) =>
      ServerInfo(name, if command != "" then Stdio else Unknown, true, command, FieldsOf(input))
  }

  // ---------------------------------------------------------------------
  // The section as blocks
  // ---------------------------------------------------------------------

  function ReplacedBlocks(blocks: seq<ServerBlock>, input: ServerInput): seq<ServerBlock> {
    if blocks == [] then []
    else [if blocks[0].name == input.name then BlockFor(input) else blocks[0]] + ReplacedBlocks(blocks[1..], input)
  }

  function NewBlocks(blocks: seq<ServerBlock>, input: ServerInput): seq<ServerBlock> {
    ReplacedBlocks(blocks, input) + if HasServer(blocks, input.name) then [] else [BlockFor(input)]
  }

  lemma {:induction false} FlatAppend(a: seq<ServerBlock>, b: seq<ServerBlock>)
    ensures Flat(a + b) == Flat(a) + Flat(b)
  {
    if a == [] {
      assert a + b == b;
    } else {
      assert (a + b)[1..] == a[1..] + b;
      FlatAppend(a[1..], b);
    }
  }

  lemma {:induction false} ReplacedIsFlat(blocks: seq<ServerBlock>, input: ServerInput)
    ensures Replaced(blocks, input.name, Rendered(input)) == Flat(ReplacedBlocks(blocks, input))
  {
    hide Rendered;
    if blocks != [] {
      ReplacedIsFlat(blocks[1..], input);
      var head := if blocks[0].name == input.name then BlockFor(input) else blocks[0];
      assert ReplacedBlocks(blocks, input)[1..] == ReplacedBlocks(blocks[1..], input);
    }
  }

  lemma NewSectionIsFlat(blocks: seq<ServerBlock>, input: ServerInput)
    ensures NewSection(blocks, input) == [SECTION] + Flat(NewBlocks(blocks, input))
  {
    hide Rendered, Replaced, ReplacedBlocks;
    ReplacedIsFlat(blocks, input);
    var added := if HasServer(blocks, input.name) then [] else [BlockFor(input)];
    FlatAppend(ReplacedBlocks(blocks, input), added);
    assert Flat([BlockFor(input)]) == Rendered(input) + Flat([]);
  }

  ghost predicate Good(blocks: seq<ServerBlock>) {
    forall i :: 0 <= i < |blocks| ==> WellShaped(blocks[i]) && Harmless(blocks[i])
  }

  lemma {:induction false} ReplacedAreGood(blocks: seq<ServerBlock>, input: ServerInput)
    requires Good(blocks) && ValidName(input.name)
    ensures Good(ReplacedBlocks(blocks, input))
  {
    hide WellShaped, Harmless, ValidName, Rendered;
    RenderedIsWellShaped(input);
    if blocks != [] {
      ReplacedAreGood(blocks[1..], input);
    }
  }

  lemma NewBlocksAreGood(blocks: seq<ServerBlock>, input: ServerInput)
    requires Good(blocks) && ValidName(input.name)
    ensures Good(NewBlocks(blocks, input))
  {
    hide WellShaped, Harmless, ValidName, Rendered, ReplacedBlocks;
    RenderedIsWellShaped(input);
    ReplacedAreGood(blocks, input);
  }

  lemma {:induction false} InfosAt(blocks: seq<ServerBlock>)
    requires forall b :: b in blocks ==> b.lines != []
    ensures forall i :: 0 <= i < |blocks| ==> Infos(blocks)[i] == BlockInfo(blocks[i])
  {
    hide BlockInfo;
    if blocks != [] {
      InfosAt(blocks[1..]);
    }
  }

  lemma {:induction false} ReplacedAt(blocks: seq<ServerBlock>, input: ServerInput)
    ensures |ReplacedBlocks(blocks, input)| == |blocks|
    ensures forall i :: 0 <= i < |blocks| ==>
      ReplacedBlocks(blocks, input)[i] == if blocks[i].name == input.name then BlockFor(input) else blocks[i]
  {
    hide BlockFor;
    if blocks != [] {
      ReplacedAt(blocks[1..], input);
    }
  }

  lemma InfoOfRendered(input: ServerInput)
    requires Proper(input)
    ensures BlockFor(input).lines != [] && BlockInfo(BlockFor(input)) == InfoFor(input)
  {
    hide ReadFields, RenderedFields, NameLine;
    RenderedIsRead(input);
    assert Rendered(input)[1..] == RenderedFields(input);
  }

  lemma InfosOfNewBlocks(blocks: seq<ServerBlock>, input: ServerInput)
    requires Good(blocks) && Proper(input)
    ensures forall b :: b in blocks + NewBlocks(blocks, input) ==> b.lines != []
    ensures Infos(NewBlocks(blocks, input)) == UpsertedInfos(Infos(blocks), InfoFor(input))
  {
    hide BlockInfo, ReplacedBlocks, Infos, BlockFor, Proper, InfoFor, Harmless;
    ProperIsNamed(input);
    NewBlocksAreGood(blocks, input);
    var made := NewBlocks(blocks, input);
    forall b | b in blocks + made
      ensures b.lines != []
    {
    }
    ReplacedAt(blocks, input);
    InfosAt(blocks);
    InfosAt(made);
    InfoOfRendered(input);
    forall i | 0 <= i < |blocks|
      ensures Infos(blocks)[i].name == blocks[i].name
    {
      InfoKeepsName(blocks[i]);
    }
    InfoNamed(input);
    var infos := Infos(blocks);
    assert HasInfo(infos, input.name) <==> HasServer(blocks, input.name);
    assert |Infos(made)| == |UpsertedInfos(infos, InfoFor(input))|;
    assert Infos(made) == UpsertedInfos(infos, InfoFor(input));
  }

  lemma ProperIsNamed(input: ServerInput)
    requires Proper(input)
    ensures ValidName(input.name)
  {
  }

  lemma InfoNamed(input: ServerInput)
    ensures InfoFor(input).name == input.name
    ensures BlockFor(input).name == input.name
  {
  }

  lemma InfoKeepsName(b: ServerBlock)
    requires b.lines != []
    ensures BlockInfo(b).name == b.name
  {
  }

  // ---------------------------------------------------------------------
  // The laws on lines
  // ---------------------------------------------------------------------

  lemma BlocksAreGood(lines: seq<string>, block: McpBlock)
    requires FindMcpBlock(lines) == Some(block)
    ensures Good(BlocksOf(lines, block))
  {
    hide WellShaped, Harmless, ServerBlocks, EndsBlock, IsMcpHeader, Infos;
    SectionParts(lines, block);
    var inner := lines[block.startLine + 1..block.endLine];
    GroupsAreWellShaped(inner, 1);
    GroupsAreHarmless(inner, 1);
  }

  lemma GapIsBlank(lines: seq<string>, end: nat)
    ensures AllBlank(Gap(lines, end)) && NoEnd(Gap(lines, end))
  {
  }

  /** A section written from good blocks, with a gap behind it, reads as those blocks. */
  lemma WrittenSectionIsRead(pre: seq<string>, blocks: seq<ServerBlock>, gap: seq<string>, post: seq<string>)
    requires NoHeader(pre) && Good(blocks) && AllBlank(gap) && NoEnd(gap) && (post != [] ==> EndsBlock(post[0]))
    ensures forall b :: b in blocks ==> b.lines != []
    ensures ServersIn(pre + ([SECTION] + Flat(blocks)) + gap + post) == Infos(blocks)
  {
    hide WellShaped, EndsBlock, IsMcpHeader, Blank, ServersIn, Infos, ServerBlocks;
    forall b | b in blocks
      ensures b.lines != []
    {
      WellShapedHasLines(b);
    }
    var inner := Flat(blocks) + gap;
    FlatIsHarmless(blocks);
    SectionHeads();
    SectionIsRead(pre, SECTION, inner, post);
    GroupsComeBack(blocks, gap, 1);
    Regrouped(pre, SECTION, Flat(blocks), gap, post);
  }

  lemma Regrouped(pre: seq<string>, header: string, a: seq<string>, b: seq<string>, post: seq<string>)
    ensures pre + ([header] + a) + b + post == pre + [header] + (a + b) + post
  {
    assert pre + ([header] + a) + b == pre + [header] + (a + b);
  }

  /** Writing a server into an existing section replaces or adds that one server and leaves all others in order. */
  lemma UpsertIntoSection(lines: seq<string>, block: McpBlock, input: ServerInput)
    requires FindMcpBlock(lines) == Some(block) && Proper(input)
    ensures ServersIn(UpsertedIn(lines, block, input)) == UpsertedInfos(ServersIn(lines), InfoFor(input))
  {
    hide WellShaped, EndsBlock, IsMcpHeader, Blank, ServersIn, Infos, ServerBlocks, Gap, NewSection, Proper;
    hide FindMcpBlock, InfoFor, UpsertedInfos, NewBlocks, Harmless;
    var blocks := BlocksOf(lines, block);
    SectionParts(lines, block);
    BlocksAreGood(lines, block);
    ProperIsNamed(input);
    NewBlocksAreGood(blocks, input);
    NewSectionIsFlat(blocks, input);
    GapIsBlank(lines, block.endLine);
    WrittenSectionIsRead(
      lines[..block.startLine], NewBlocks(blocks, input), Gap(lines, block.endLine), lines[block.endLine..]);
    InfosOfNewBlocks(blocks, input);
  }

  /** Without a section a new one is appended, with the one server in it. */
  lemma UpsertWithoutSection(lines: seq<string>, input: ServerInput)
    requires NoHeader(lines) && Proper(input)
    ensures ServersIn(WithSection(lines, input)) == [InfoFor(input)]
  {
    hide WellShaped, EndsBlock, IsMcpHeader, ServersIn, Proper, InfoFor, Rendered, BlockFor, Harmless;
    ProperIsNamed(input);
    var prefix := if lines != [] && lines[|lines| - 1] == "" then lines[..|lines| - 1] else lines;
    var pre := prefix + (if prefix != [] then [""] else []);
    BlankIsNoServer("");
    var blocks := [BlockFor(input)];
    RenderedIsWellShaped(input);
    InfoOfRendered(input);
    WrittenSectionIsRead(pre, blocks, [""], []);
    OneBlock(input);
    assert pre + ([SECTION] + Rendered(input)) + [""] + [] == pre + [SECTION] + Rendered(input) + [""];
  }

  lemma OneBlock(input: ServerInput)
    ensures Flat([BlockFor(input)]) == Rendered(input)
    ensures BlockFor(input).lines != [] && Infos([BlockFor(input)]) == [BlockInfo(BlockFor(input))]
  {
    assert Rendered(input) + [] == Rendered(input);
  }

  // ---------------------------------------------------------------------
  // From lines to text
  // ---------------------------------------------------------------------

  /** A line that joining and splitting again does not change. */
  predicate CleanLine(line: string) {
    NoFeed(line) && (line != "" ==> line[|line| - 1] != '\r')
  }

  ghost predicate AllClean(lines: seq<string>) {
    forall i :: 0 <= i < |lines| ==> CleanLine(lines[i])
  }

  lemma CleanLinesComeBack(lines: seq<string>, last: bool)
    requires AllClean(lines)
    ensures NoFeeds(lines) && Reread(lines, last) == lines && ReadsAlike(lines, last)
  {
    hide Servers;
    forall i | 0 <= i < |lines|
      ensures NoFeed(lines[i]) && DropReturn(lines[i]) == lines[i]
    {
      assert CleanLine(lines[i]);
    }
    CleanReadsAlike(lines, last);
  }

  lemma {:induction false} GroupsHaveNoFeeds(lines: seq<string>, offset: nat)
    requires NoFeeds(lines)
    ensures NoFeeds(Flat(ServerBlocks(lines, offset)))
    ensures forall i :: 0 <= i < |ServerBlocks(lines, offset)| ==> NoFeeds(ServerBlocks(lines, offset)[i].lines)
    decreases |lines|
  {
    hide ServerName, NoFeed, Blank, Flat, NoFeeds, DropBlankEnd, InnerLength;
    if lines == [] {
      EmptyHasNoFeeds();
    } else {
      match ServerName(lines[0]) {
        case None =>
          TailHasNoFeeds(lines, 1);
          GroupsHaveNoFeeds(lines[1..], offset + 1);
        case Some(name) =>
          var n := InnerLength(lines[1..]);
          TailHasNoFeeds(lines, 1 + n);
          GroupsHaveNoFeeds(lines[1 + n..], offset + 1 + n);
          FirstHasNoFeeds(lines, n, name, offset);
          var first := ServerBlock(name, [lines[0]] + DropBlankEnd(lines[1..1 + n]), offset);
          var rest := ServerBlocks(lines[1 + n..], offset + 1 + n);
          assert ServerBlocks(lines, offset) == [first] + rest;
          FlatCons(first, rest);
          ConcatHasNoFeeds(first.lines, Flat(rest));
      }
    }
  }

  lemma EmptyHasNoFeeds()
    ensures NoFeeds([]) && NoFeeds(Flat([]))
  {
  }

  lemma TailHasNoFeeds(lines: seq<string>, n: nat)
    requires NoFeeds(lines) && n <= |lines|
    ensures NoFeeds(lines[n..])
  {
    hide NoFeed;
  }

  lemma FlatCons(b: ServerBlock, rest: seq<ServerBlock>)
    ensures Flat([b] + rest) == b.lines + Flat(rest)
  {
    assert ([b] + rest)[1..] == rest;
  }

  lemma FirstHasNoFeeds(lines: seq<string>, n: nat, name: string, offset: nat)
    requires NoFeeds(lines) && 1 + n <= |lines|
    ensures NoFeeds([lines[0]] + DropBlankEnd(lines[1..1 + n]))
  {
    hide NoFeed, Blank;
    var inner := lines[1..1 + n];
    var kept := DropBlankEnd(inner);
    assert forall i :: 0 <= i < |kept| ==> kept[i] == inner[i] == lines[1 + i];
  }

  lemma {:induction false} ReplacedHasNoFeeds(blocks: seq<ServerBlock>, input: ServerInput)
    requires forall i :: 0 <= i < |blocks| ==> NoFeeds(blocks[i].lines)
    requires NoFeeds(Rendered(input))
    ensures NoFeeds(Replaced(blocks, input.name, Rendered(input)))
  {
    hide NoFeed, Rendered;
    if blocks != [] {
      ReplacedHasNoFeeds(blocks[1..], input);
    }
  }

  lemma QuotedLineIsClean(prefix: string, value: string)
    requires NoFeed(prefix) && OneLine(value)
    ensures CleanLine(prefix + QuoteYamlScalar(value))
  {
    var q := QuoteYamlScalar(value);
    QuotedIsOneLine(value);
    var s := prefix + q;
    assert forall i :: |prefix| <= i < |s| ==> s[i] == q[i - |prefix|];
    assert s[|s| - 1] == q[|q| - 1] == '"';
  }

  lemma {:induction false} ItemsAreClean(args: seq<string>)
    requires forall i :: 0 <= i < |args| ==> OneLine(args[i])
    ensures AllClean(RenderedItems(args))
  {
    hide CleanLine, QuoteYamlScalar;
    if args != [] {
      QuotedLineIsClean("      - ", args[0]);
      ItemsAreClean(args[1..]);
    }
  }

  lemma EntryIsClean(key: string, value: string)
    requires ValidEnvName(key) && OneLine(value)
    ensures CleanLine("      " + key + ": " + QuoteYamlScalar(value))
  {
    hide CleanLine, QuoteYamlScalar;
    assert NoFeed(key) && NoFeed("      " + key) && NoFeed("      " + key + ": ");
    QuotedLineIsClean("      " + key + ": ", value);
  }

  lemma {:induction false} EnvIsClean(env: seq<(string, string)>)
    requires forall i :: 0 <= i < |env| ==> ValidEnvName(env[i].0) && OneLine(env[i].1)
    ensures AllClean(RenderedEnv(env))
  {
    hide CleanLine, QuoteYamlScalar, ValidEnvName;
    if env != [] {
      EntryIsClean(env[0].0, env[0].1);
      EnvIsClean(env[1..]);
    }
  }

  lemma RenderedIsClean(input: ServerInput)
    requires Proper(input)
    ensures AllClean(Rendered(input))
  {
    hide CleanLine, QuoteYamlScalar, RenderedItems, RenderedEnv, ValidEnvName;
    NameLineIsClean(input.name);
    BareLinesAreClean();
    match input
    case HttpServer(_, url, auth) =>
      QuotedLineIsClean("    url: ", url);
      QuotedLineIsClean("    auth: ", auth);
    case StdioServer(_, command, args, env) =>
      QuotedLineIsClean("    command: ", command);
      ItemsAreClean(args);
      EnvIsClean(env);
  }

  lemma NameLineIsClean(name: string)
    requires ValidName(name)
    ensures CleanLine(NameLine(name))
  {
    var s := NameLine(name);
    assert forall i :: 2 <= i < 2 + |name| ==> s[i] == name[i - 2];
  }

  lemma BareLinesAreClean()
    ensures CleanLine("    args:") && CleanLine("    env:") && CleanLine(SECTION) && CleanLine("")
  {
  }

  lemma ConcatHasNoFeeds(a: seq<string>, b: seq<string>)
    requires NoFeeds(a) && NoFeeds(b)
    ensures NoFeeds(a + b)
  {
    hide NoFeed;
  }

  lemma UpsertedInHasNoFeeds(lines: seq<string>, block: McpBlock, input: ServerInput)
    requires NoFeeds(lines) && NoFeeds(Rendered(input)) && block.startLine < block.endLine <= |lines|
    ensures NoFeeds(UpsertedIn(lines, block, input)) && UpsertedIn(lines, block, input) != []
  {
    hide NoFeed, Rendered, Replaced, ServerBlocks, Blank;
    BareLinesAreClean();
    GroupsHaveNoFeeds(lines[block.startLine + 1..block.endLine], 1);
    var blocks := BlocksOf(lines, block);
    ReplacedHasNoFeeds(blocks, input);
    var section := [SECTION] + Replaced(blocks, input.name, Rendered(input));
    ConcatHasNoFeeds([SECTION], Replaced(blocks, input.name, Rendered(input)));
    ConcatHasNoFeeds(section, if HasServer(blocks, input.name) then [] else Rendered(input));
    ConcatHasNoFeeds(lines[..block.startLine], NewSection(blocks, input));
    ConcatHasNoFeeds(lines[..block.startLine] + NewSection(blocks, input), Gap(lines, block.endLine));
  }

  lemma WithSectionHasNoFeeds(lines: seq<string>, input: ServerInput)
    requires NoFeeds(lines) && NoFeeds(Rendered(input))
    ensures NoFeeds(WithSection(lines, input)) && WithSection(lines, input) != []
  {
    hide NoFeed, Rendered;
    BareLinesAreClean();
  }

  lemma UpsertedLinesHaveNoFeeds(content: string, input: ServerInput)
    requires Proper(input)
    ensures NoFeeds(UpsertedLines(content, input)) && UpsertedLines(content, input) != []
  {
    hide NoFeed, Rendered, Proper, FindMcpBlock, UpsertedIn, WithSection, SplitLines, AllClean;
    RenderedIsClean(input);
    CleanLinesComeBack(Rendered(input), true);
    var lines := SplitLines(content);
    match FindMcpBlock(lines)
    case None => WithSectionHasNoFeeds(LinesOf(content), input);
    case Some(block) => UpsertedInHasNoFeeds(lines, block, input);
  }

  // ---------------------------------------------------------------------
  // The round trip
  // ---------------------------------------------------------------------

  /** The servers of other names are read alike without the returns that joining takes from their lines. */
  predicate KeptReadAlike(blocks: seq<ServerBlock>, name: string, last: bool) {
    forall i :: 0 <= i < |blocks| && blocks[i].name != name ==>
      ReadsAlike(blocks[i].lines, last && i == |blocks| - 1 && HasServer(blocks, name))
  }

  predicate OthersReadAlike(content: string, name: string) {
    var lines := SplitLines(content);
    var block := FindMcpBlock(lines);
    block.Some? ==> KeptReadAlike(BlocksOf(lines, block.value), name, block.value.endLine == |lines|)
  }

  lemma KeptSteadyExactly(blocks: seq<ServerBlock>, input: ServerInput, last: bool)
    requires Proper(input)
    ensures BlocksSteady(NewBlocks(blocks, input), last) <==> KeptReadAlike(blocks, input.name, last)
  {
    hide ReadsAlike, Rendered, Proper, ReplacedBlocks, AllClean;
    var made := NewBlocks(blocks, input);
    RenderedIsClean(input);
    CleanLinesComeBack(Rendered(input), true);
    CleanLinesComeBack(Rendered(input), false);
    ReplacedAt(blocks, input);
    forall i | 0 <= i < |made|
      ensures ReadsAlike(made[i].lines, IsLast(made, i, last)) <==>
        i == |blocks| || blocks[i].name == input.name
        || ReadsAlike(blocks[i].lines, last && i == |blocks| - 1 && HasServer(blocks, input.name))
    {
    }
    if KeptReadAlike(blocks, input.name, last) {
      assert BlocksSteady(made, last);
    }
    if BlocksSteady(made, last) {
      forall i | 0 <= i < |blocks| && blocks[i].name != input.name
        ensures ReadsAlike(blocks[i].lines, last && i == |blocks| - 1 && HasServer(blocks, input.name))
      {
        assert ReadsAlike(made[i].lines, IsLast(made, i, last));
      }
    }
  }

  /**
   * The MCP round trip, over every document: after a server is written, the
   * document reads as before with exactly that server replaced in place, or added
   * at the end, every field of it as given, and every other server and their order
   * unchanged, exactly if the lines of the other servers read alike once joined.
   */
  lemma ReadAfterUpsert(content: string, input: ServerInput)
    requires Proper(input)
    ensures (ParseMcpServersFromConfig(Join(UpsertedLines(content, input)))
             == UpsertedInfos(ParseMcpServersFromConfig(content), InfoFor(input)))
      <==> OthersReadAlike(content, input.name)
  {
    hide Proper, ServersIn, FindMcpBlock, Join, UpsertedInfos, InfoFor, UpsertedIn, WithSection, SplitLines, NoFeeds,
      KeptReadAlike;
    UpsertedLinesHaveNoFeeds(content, input);
    var lines := SplitLines(content);
    match FindMcpBlock(lines)
    case None =>
      NoSectionNoServers(lines);
      LinesOfKeepNoHeader(content);
      JoinedNewSection(LinesOf(content), input);
      FirstServer(InfoFor(input));
    case Some(block) => JoinedUpsert(lines, block, input);
  }

  lemma JoinedUpsert(lines: seq<string>, block: McpBlock, input: ServerInput)
    requires FindMcpBlock(lines) == Some(block) && Proper(input) && NoFeeds(UpsertedIn(lines, block, input))
    ensures (ParseMcpServersFromConfig(Join(UpsertedIn(lines, block, input))) == UpsertedInfos(ServersIn(lines), InfoFor(input)))
      <==> KeptReadAlike(BlocksOf(lines, block), input.name, block.endLine == |lines|)
  {
    hide WellShaped, EndsBlock, IsMcpHeader, ServersIn, Infos, ServerBlocks, NewSection, Proper, NoFeeds;
    hide FindMcpBlock, InfoFor, UpsertedInfos, NewBlocks, Harmless, BlocksSteady, KeptReadAlike, ParseMcpServersFromConfig;
    var blocks := BlocksOf(lines, block);
    SectionParts(lines, block);
    BlocksAreGood(lines, block);
    ProperIsNamed(input);
    NewBlocksAreGood(blocks, input);
    NewSectionIsFlat(blocks, input);
    InfosOfNewBlocks(blocks, input);
    KeptSteadyExactly(blocks, input, block.endLine == |lines|);
    var made, gap, pre, post := NewBlocks(blocks, input), Gap(lines, block.endLine), lines[..block.startLine], lines[block.endLine..];
    FlatIsHarmless(made);
    GapIsBlank(lines, block.endLine);
    SectionHeads();
    Regrouped(pre, SECTION, Flat(made), gap, post);
    WrittenBlocksExactly(UpsertedIn(lines, block, input), pre, SECTION, made, gap, post);
  }

  lemma JoinedNewSection(lines: seq<string>, input: ServerInput)
    requires NoHeader(lines) && Proper(input) && NoFeeds(WithSection(lines, input))
    ensures ParseMcpServersFromConfig(Join(WithSection(lines, input))) == [InfoFor(input)]
  {
    hide WellShaped, EndsBlock, IsMcpHeader, Proper, InfoFor, Rendered, BlockFor, Harmless, NoFeeds, Servers;
    ProperIsNamed(input);
    var prefix := if lines != [] && lines[|lines| - 1] == "" then lines[..|lines| - 1] else lines;
    var pre := prefix + (if prefix != [] then [""] else []);
    BlankIsNoServer("");
    var blocks := [BlockFor(input)];
    RenderedIsWellShaped(input);
    InfoOfRendered(input);
    OneBlock(input);
    SectionHeads();
    FlatIsHarmless(blocks);
    var inner := Rendered(input) + [""];
    assert WithSection(lines, input) == pre + [SECTION] + inner + [];
    JoinedSection(WithSection(lines, input), pre, SECTION, inner, []);
    RenderedIsClean(input);
    BareLinesAreClean();
    CleanLinesComeBack(inner, true);
    BlankGap([""]);
    GroupsComeBack(blocks, [""], 1);
    assert Servers(inner) == Infos(blocks) by { GroupedServers(inner); }
  }

  lemma GroupedServers(lines: seq<string>)
    ensures Servers(lines) == Infos(ServerBlocks(lines, 1))
  {
  }

  /** No carriage return is left at the end of a line: none is doubled, and none ends the document. */
  ghost predicate NoStrayReturns(content: string) {
    AllClean(SplitLines(content))
  }

  /** Without stray returns the condition holds. */
  lemma CleanDocumentReadsAlike(content: string, name: string)
    requires NoStrayReturns(content)
    ensures OthersReadAlike(content, name)
  {
    hide CleanLine, ReadsAlike, FindMcpBlock, ServerBlocks, SplitLines;
    var lines := SplitLines(content);
    match FindMcpBlock(lines)
    case None =>
    case Some(block) =>
      GroupsAreClean(lines[block.startLine + 1..block.endLine], 1);
      forall i, last | 0 <= i < |BlocksOf(lines, block)|
        ensures ReadsAlike(BlocksOf(lines, block)[i].lines, last)
      {
        CleanLinesComeBack(BlocksOf(lines, block)[i].lines, last);
      }
  }

  lemma {:induction false} GroupsAreClean(lines: seq<string>, offset: nat)
    requires AllClean(lines)
    ensures forall i :: 0 <= i < |ServerBlocks(lines, offset)| ==> AllClean(ServerBlocks(lines, offset)[i].lines)
    decreases |lines|
  {
    hide ServerName, CleanLine, Blank;
    if lines != [] {
      match ServerName(lines[0]) {
        case None => GroupsAreClean(lines[1..], offset + 1);
        case Some(name) =>
          var n := InnerLength(lines[1..]);
          GroupsAreClean(lines[1 + n..], offset + 1 + n);
          var inner := lines[1..1 + n];
          assert forall i :: 0 <= i < |DropBlankEnd(inner)| ==> DropBlankEnd(inner)[i] == inner[i];
      }
    }
  }

  lemma NoSectionNoServers(lines: seq<string>)
    requires FindMcpBlock(lines).None?
    ensures ServersIn(lines) == [] && NoHeader(lines)
  {
    hide IsMcpHeader, BlockLength;
  }

  lemma LinesOfKeepNoHeader(content: string)
    requires NoHeader(SplitLines(content))
    ensures NoHeader(LinesOf(content))
  {
    hide IsMcpHeader, SplitLines;
  }

  lemma FirstServer(info: ServerInfo)
    ensures UpsertedInfos([], info) == [info]
  {
  }

  // ---------------------------------------------------------------------
  // What the conditions are for
  // ---------------------------------------------------------------------

  /** A doubled carriage return hides a field from the reader; rewriting the section makes it visible. */
  lemma StrayReturnHidesField(key: string, q: string)
    requires key != "" && KeyStart(key[0]) && forall i :: 0 <= i < |key| ==> KeyChar(key[i])
    requires Visible(q) && OneLine(q)
    ensures FieldLine("    " + key + ": " + (q + "\r")) == None
    ensures FieldLine("    " + key + ": " + q) == Some((key, q))
  {
    hide KeyStart, IsSpace;
    FieldLineIs(key, q);
    var r := q + "\r";
    var s := "    " + key + ": " + r;
    Entry("    ", key, r);
    KeyStops(':');
    KeyRun(s, 4, 4 + |key|);
    SpaceIs(' ');
    ColonAt(s, 4 + |key|, 4 + |key| + 2);
    assert r[|r| - 1] == '\r';
    assert !OneLine(r);
  }

  /** The document of one server, whose one field line ends in a doubled return. */
  function DoubledReturn(q: string): string {
    Join([SECTION, NameLine("a"), "    auth: " + (q + "\r\r"), ""])
  }

  lemma DoubledReturnLines(q: string)
    requires Visible(q) && OneLine(q)
    ensures SplitLines(DoubledReturn(q)) == [SECTION, NameLine("a"), "    auth: " + (q + "\r"), ""]
  {
    var first, second := "    auth: " + (q + "\r\r"), "    auth: " + (q + "\r");
    var lines := [SECTION, NameLine("a"), first, ""];
    assert NoFeed(q + "\r\r") && NoFeed(first);
    assert first == second + "\r" && first[..|first| - 1] == second;
    assert NoFeeds(lines);
    JoinedAreReread(lines);
    BareLinesAreClean();
    NameLineIsClean("a");
    assert Reread(lines, true) == [SECTION, NameLine("a"), second, ""];
  }

  lemma OneServer(line: string)
    requires !Blank(line) && ServerName(line).None?
    ensures ServerName(NameLine("a")) == Some("a")
    ensures Servers([NameLine("a"), line]) == [InfoOf("a", ReadFields([line], NO_FIELDS))]
  {
    hide ServerName, Servers, Blank, ReadFields;
    NameLineIs("a");
    var inner := [line];
    GroupFirst(NameLine("a"), inner, []);
    NothingServes();
    assert DropBlankEnd(inner) == inner;
    assert [NameLine("a")] + inner + [] == [NameLine("a"), line];
    var b := ServerBlock("a", [NameLine("a")] + inner, 1);
    assert b.lines[1..] == inner;
  }

  lemma AuthLine(q: string)
    requires Visible(q) && OneLine(q)
    ensures ReadFields(["    auth: " + q], NO_FIELDS).auth.Some?
    ensures ReadFields(["    auth: " + (q + "\r")], NO_FIELDS) == NO_FIELDS
  {
    hide FieldLine, ParsedScalar, KeyStart, KeyChar;
    AuthKey();
    StrayReturnHidesField("auth", q);
    assert "    " + "auth" + ": " + q == "    auth: " + q;
    assert "    " + "auth" + ": " + (q + "\r") == "    auth: " + (q + "\r");
  }

  lemma AuthKey()
    ensures KeyStart("auth"[0]) && forall i :: 0 <= i < |"auth"| ==> KeyChar("auth"[i])
  {
  }

  lemma AuthLineShape(q: string)
    ensures
      var line := "    auth: " + q;
      !Blank(line) && ServerName(line).None? && !EndsBlock(line) && !IsMcpHeader(line)
  {
    var line := "    auth: " + q;
    assert line[4] == 'a' && line[2] == ' ' && line[0] == ' ';
    IndentedLine(line);
  }

  /**
   * In this document writing any other server changes what is read of the first
   * one: its field was hidden by a return that joining the lines takes away.
   */
  lemma StrayReturnChangesServer(q: string, input: ServerInput)
    requires Visible(q) && OneLine(q) && Proper(input) && input.name != "a"
    ensures !OthersReadAlike(DoubledReturn(q), input.name)
    ensures ParseMcpServersFromConfig(Join(UpsertedLines(DoubledReturn(q), input)))
      != UpsertedInfos(ParseMcpServersFromConfig(DoubledReturn(q)), InfoFor(input))
  {
    hide ParseMcpServersFromConfig, UpsertedLines, Proper, UpsertedInfos, InfoFor, OthersReadAlike;
    HiddenField(q, input.name);
    ReadAfterUpsert(DoubledReturn(q), input);
  }

  lemma HiddenField(q: string, name: string)
    requires Visible(q) && OneLine(q) && name != "a"
    ensures !OthersReadAlike(DoubledReturn(q), name)
  {
    hide DoubledReturn, ServerName, EndsBlock, IsMcpHeader, Servers, Blank, ReadFields, SplitLines, FindMcpBlock,
      ServerBlocks, Visible;
    var hidden, shown := "    auth: " + (q + "\r"), "    auth: " + q;
    DoubledReturnLines(q);
    AuthLineShape(q + "\r");
    AuthLineShape(q);
    BlankIsNoServer("");
    SectionHeads();
    OneServer(hidden);
    OneServer(shown);
    AuthLine(q);
    NameLineIsHarmless("a");
    var inner := [NameLine("a"), hidden, ""];
    var lines := SplitLines(DoubledReturn(q));
    assert lines == [] + [SECTION] + inner + [];
    SectionIsFound(lines, [], SECTION, inner, []);
    TheOneBlock(hidden);
    var mine := [NameLine("a"), hidden];
    RereadsShown(hidden, shown);
    assert !ReadsAlike(mine, false);
    assert BlocksOf(lines, McpBlock(0, 4)) == [ServerBlock("a", mine, 1)];
    assert BlocksOf(lines, McpBlock(0, 4))[0].lines == mine;
  }

  lemma RereadsShown(hidden: string, shown: string)
    requires hidden == shown + "\r"
    ensures Reread([NameLine("a"), hidden], false) == [NameLine("a"), shown]
  {
    NameLineIsClean("a");
    assert hidden[..|hidden| - 1] == shown;
  }

  lemma TheOneBlock(line: string)
    requires !Blank(line) && ServerName(line).None?
    ensures ServerBlocks([NameLine("a"), line, ""], 1) == [ServerBlock("a", [NameLine("a"), line], 1)]
  {
    hide ServerName, Blank;
    NameLineIs("a");
    BlankIsNoServer("");
    var b := ServerBlock("a", [NameLine("a"), line], 1);
    BlanksHoldNothing([], 4);
    FirstGroup(b, [""], 1, 1);
    assert b.lines + [""] == [NameLine("a"), line, ""];
  }

  /** What validation accepts is proper as soon as no string has a line terminator. */
  lemma ValidatedIsProper(raw: RawInput)
    requires ValidateServerInput(raw).Ok?
    requires OneLine(raw.url) && OneLine(raw.command) && OneLine(raw.auth)
    requires forall i :: 0 <= i < |raw.args| ==> OneLine(raw.args[i])
    requires forall i :: 0 <= i < |raw.env| ==> OneLine(raw.env[i].1)
    ensures Proper(ValidateServerInput(raw).value)
  {
    hide ValidName, ValidEnvName, OneLine, IsHttpUrl;
    TrimKeepsOneLine(raw.url);
    TrimKeepsOneLine(raw.command);
    if raw.kind == "stdio" && CheckEnv(raw.env, []).Ok? {
      CheckedEnv(raw.env, []);
      TrimmedArgs(raw.args);
    }
  }

  lemma TrimKeepsOneLine(s: string)
    requires OneLine(s)
    ensures OneLine(Trim(s))
  {
    hide SpaceEnd;
    var t := TrimStart(s);
    assert forall i :: 0 <= i < |t| ==> t[i] == s[SpaceEnd(s) + i];
    assert Trim(s) <= t;
    assert forall i :: 0 <= i < |Trim(s)| ==> Trim(s)[i] == t[i];
  }

  predicate GoodEnv(env: seq<(string, string)>) {
    forall i :: 0 <= i < |env| ==> ValidEnvName(env[i].0) && OneLine(env[i].1)
  }

  lemma {:induction false} AssignKeepsGood(env: seq<(string, string)>, key: string, value: string)
    requires GoodEnv(env) && ValidEnvName(key) && OneLine(value)
    ensures GoodEnv(Assign(env, key, value))
  {
    hide ValidEnvName, OneLine;
    if env != [] && env[0].0 != key {
      AssignKeepsGood(env[1..], key, value);
    }
  }

  lemma {:induction false} CheckedEnv(entries: seq<(string, string)>, env: seq<(string, string)>)
    requires GoodEnv(env) && forall i :: 0 <= i < |entries| ==> OneLine(entries[i].1)
    ensures CheckEnv(entries, env).Ok? ==> GoodEnv(CheckEnv(entries, env).value)
    decreases |entries|
  {
    hide ValidEnvName, OneLine, GoodEnv, Trim;
    if entries != [] {
      var key := Trim(entries[0].0);
      if key == "" {
        CheckedEnv(entries[1..], env);
      } else if ValidEnvName(key) {
        AssignKeepsGood(env, key, entries[0].1);
        CheckedEnv(entries[1..], Assign(env, key, entries[0].1));
      }
    }
  }

  lemma {:induction false} TrimmedArgs(args: seq<string>)
    requires forall i :: 0 <= i < |args| ==> OneLine(args[i])
    ensures forall i :: 0 <= i < |NonEmpty(Trimmed(args))| ==> OneLine(NonEmpty(Trimmed(args))[i])
  {
    hide OneLine, Trim;
    if args != [] {
      TrimKeepsOneLine(args[0]);
      TrimmedArgs(args[1..]);
      assert Trimmed(args)[1..] == Trimmed(args[1..]);
    }
  }
}
