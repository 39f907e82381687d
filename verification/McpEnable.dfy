/** Switching one server of the MCP section on or off. */
module McpEnable {
  import opened McpConfig
  import opened McpEdits
  import opened McpLaws
  import opened McpScalars
  import opened McpUpsertLaws
  import opened Text
  import opened TextLines
  import opened Wrappers

  const ENABLED := "    enabled"

  /** A line of the enabled field, whatever it holds. */
  predicate IsEnabledLine(line: string) {
    ENABLED <= line && AfterColon(line, |ENABLED|).Some?
  }

  function FlagLine(enabled: bool): string {
    "    " + "enabled" + ": " + if enabled then "true" else "false"
  }

  function FirstEnabled(lines: seq<string>): (r: int)
    ensures r == -1 || 0 <= r < |lines|
    ensures r == -1 ==> forall i :: 0 <= i < |lines| ==> !IsEnabledLine(lines[i])
    ensures r >= 0 ==> IsEnabledLine(lines[r]) && forall i :: 0 <= i < r ==> !IsEnabledLine(lines[i])
  {
    if lines == [] then -1
    else if IsEnabledLine(lines[0]) then 0
    else
      var r := FirstEnabled(lines[1..]);
      if r == -1 then -1 else r + 1
  }

  /** A server's lines with the first enabled line set, or one added. */
  function EditServer(lines: seq<string>, enabled: bool): seq<string> {
    var at := FirstEnabled(lines);
    if at >= 0 then lines[at := FlagLine(enabled)] else lines + [FlagLine(enabled)]
  }

  function FirstNamed(blocks: seq<ServerBlock>, name: string): (r: int)
    ensures r == -1 || 0 <= r < |blocks|
    ensures r == -1 ==> forall i :: 0 <= i < |blocks| ==> blocks[i].name != name
    ensures r >= 0 ==> blocks[r].name == name && forall i :: 0 <= i < r ==> blocks[i].name != name
  {
    if blocks == [] then -1
    else if blocks[0].name == name then 0
    else
      var r := FirstNamed(blocks[1..], name);
      if r == -1 then -1 else r + 1
  }

  /** The section's lines with the first server of a name edited where it stands. */
  function EditInner(inner: seq<string>, name: string, enabled: bool): seq<string>
    decreases |inner|
  {
    if inner == [] then []
    else
      match ServerName(inner[0])
      case None => [inner[0]] + EditInner(inner[1..], name, enabled)
      case Some(n) =>
        var k := InnerLength(inner[1..]);
        var mine := [inner[0]] + DropBlankEnd(inner[1..1 + k]);
        if n == name then EditServer(mine, enabled) + inner[|mine|..]
        else inner[..1 + k] + EditInner(inner[1 + k..], name, enabled)
  }

  function EnabledLines(lines: seq<string>, name: string, enabled: bool): seq<string> {
    match FindMcpBlock(lines)
    case None => lines
    case Some(block) =>
      lines[..block.startLine + 1]
        + EditInner(lines[block.startLine + 1..block.endLine], name, enabled)
        + lines[block.endLine..]
  }

  /** The document after the switch; one without the server is returned as it is. */
  function WithEnabled(content: string, name: string, enabled: bool): string {
    var lines := SplitLines(content);
    match FindMcpBlock(lines)
    case None => content
    case Some(block) =>
      if FirstNamed(BlocksOf(lines, block), name) == -1 then content
      else Join(EnabledLines(lines, name, enabled))
  }

  // ---------------------------------------------------------------------
  // The edit by offsets is the edit of the section
  // ---------------------------------------------------------------------

  /** An edit of a server's own lines at the place the grouping recorded. */
  function EditAt(lines: seq<string>, start: nat, server: ServerBlock, enabled: bool): seq<string>
    requires start + |server.lines| <= |lines|
  {
    var at := FirstEnabled(server.lines);
    if at >= 0 then lines[start + at := FlagLine(enabled)]
    else lines[..start + |server.lines|] + [FlagLine(enabled)] + lines[start + |server.lines|..]
  }

  lemma EditStretch(a: seq<string>, mine: seq<string>, b: seq<string>, server: ServerBlock, enabled: bool)
    requires server.lines == mine
    ensures EditAt(a + mine + b, |a|, server, enabled) == a + EditServer(mine, enabled) + b
  {
    hide IsEnabledLine, FlagLine;
    var lines := a + mine + b;
    var at := FirstEnabled(mine);
    if at >= 0 {
      assert lines[|a| + at := FlagLine(enabled)] == a + mine[at := FlagLine(enabled)] + b;
    } else {
      assert lines[..|a| + |mine|] == a + mine;
      assert lines[|a| + |mine|..] == b;
      assert a + mine + [FlagLine(enabled)] == a + (mine + [FlagLine(enabled)]);
    }
  }

  /** The recorded offset of the first server of a name is where its lines stand. */
  ghost predicate StandsWhereRecorded(
    lines: seq<string>, blocks: seq<ServerBlock>, name: string, enabled: bool, edited: seq<string>)
  {
    var at := FirstNamed(blocks, name);
    && at != -1
    && blocks[at].startOffset + |blocks[at].lines| <= |lines|
    && EditAt(lines, blocks[at].startOffset, blocks[at], enabled) == edited
  }

  lemma EditSkips(line: string, inner: seq<string>, name: string, enabled: bool)
    requires ServerName(line).None?
    ensures EditInner([line] + inner, name, enabled) == [line] + EditInner(inner, name, enabled)
    ensures forall offset: nat :: ServerBlocks([line] + inner, offset) == ServerBlocks(inner, offset + 1)
  {
    hide ServerName, DropBlankEnd, InnerLength, EditServer;
    assert ([line] + inner)[1..] == inner;
  }

  /** The lines of a section from a server on: its own, what blank lines follow, and the rest. */
  lemma EditGroup(inner: seq<string>, n: string, name: string, enabled: bool)
    requires inner != [] && ServerName(inner[0]) == Some(n)
    ensures
      var k := InnerLength(inner[1..]);
      var mine := [inner[0]] + DropBlankEnd(inner[1..1 + k]);
      && mine <= inner
      && EditInner(inner, name, enabled)
        == if n == name then EditServer(mine, enabled) + inner[|mine|..]
           else inner[..1 + k] + EditInner(inner[1 + k..], name, enabled)
  {
    hide ServerName, EditServer, Blank;
    var k := InnerLength(inner[1..]);
    assert inner[..1 + k] == [inner[0]] + inner[1..1 + k];
  }

  lemma FoundFirst(
    pre: seq<string>, mine: seq<string>, tail: seq<string>, post: seq<string>,
    later: seq<ServerBlock>, name: string, enabled: bool)
    ensures StandsWhereRecorded(
      pre + (mine + tail) + post, [ServerBlock(name, mine, |pre|)] + later, name, enabled,
      pre + (EditServer(mine, enabled) + tail) + post)
  {
    hide FirstEnabled, EditServer, EditAt;
    var server := ServerBlock(name, mine, |pre|);
    EditStretch(pre, mine, tail + post, server, enabled);
    assert pre + mine + (tail + post) == pre + (mine + tail) + post;
    assert pre + EditServer(mine, enabled) + (tail + post) == pre + (EditServer(mine, enabled) + tail) + post;
  }

  lemma FoundLater(
    lines: seq<string>, first: ServerBlock, later: seq<ServerBlock>, name: string, enabled: bool, edited: seq<string>)
    requires first.name != name && StandsWhereRecorded(lines, later, name, enabled, edited)
    ensures StandsWhereRecorded(lines, [first] + later, name, enabled, edited)
  {
    hide FirstEnabled, EditAt;
    assert ([first] + later)[1..] == later;
  }

  lemma Shifted(pre: seq<string>, a: seq<string>, b: seq<string>, post: seq<string>)
    ensures pre + a + b + post == pre + (a + b) + post
  {
    assert pre + a + b == pre + (a + b);
  }

  lemma {:induction false} ServerStandsAt(pre: seq<string>, inner: seq<string>, post: seq<string>, name: string, enabled: bool)
    requires FirstNamed(ServerBlocks(inner, |pre|), name) != -1
    ensures StandsWhereRecorded(
      pre + inner + post, ServerBlocks(inner, |pre|), name, enabled, pre + EditInner(inner, name, enabled) + post)
    decreases |inner|
  {
    hide ServerName, DropBlankEnd, Blank, EditServer, EditInner, InnerLength, StandsWhereRecorded, ServerBlocks;
    SomeLines(inner, |pre|, name);
    var line, rest := inner[0], inner[1..];
    assert inner == [line] + rest;
    match ServerName(line)
    case None =>
      EditSkips(line, rest, name, enabled);
      ServerStandsAt(pre + [line], rest, post, name, enabled);
      Shifted(pre, [line], rest, post);
      Shifted(pre, [line], EditInner(rest, name, enabled), post);
    case Some(n) =>
      var k := InnerLength(rest);
      OpensGroup(inner, n, k, |pre|);
      EditGroup(inner, n, name, enabled);
      var mine := [line] + DropBlankEnd(inner[1..1 + k]);
      var later := ServerBlocks(inner[1 + k..], |pre| + 1 + k);
      if n == name {
        assert inner == mine + inner[|mine|..];
        FoundFirst(pre, mine, inner[|mine|..], post, later, name, enabled);
      } else {
        NotFirst(ServerBlock(n, mine, |pre|), later, name);
        ServerStandsAt(pre + inner[..1 + k], inner[1 + k..], post, name, enabled);
        Shifted(pre, inner[..1 + k], inner[1 + k..], post);
        assert inner[..1 + k] + inner[1 + k..] == inner;
        Shifted(pre, inner[..1 + k], EditInner(inner[1 + k..], name, enabled), post);
        FoundLater(
          pre + inner + post, ServerBlock(n, mine, |pre|), later, name, enabled,
          pre + EditInner(inner, name, enabled) + post);
      }
  }

  lemma NotFirst(first: ServerBlock, later: seq<ServerBlock>, name: string)
    requires first.name != name && FirstNamed([first] + later, name) != -1
    ensures FirstNamed(later, name) != -1
  {
    assert ([first] + later)[1..] == later;
  }

  lemma SomeLines(inner: seq<string>, offset: nat, name: string)
    requires FirstNamed(ServerBlocks(inner, offset), name) != -1
    ensures inner != []
  {
  }

  /** The loop over the servers, which edits the document's lines in place and stops. */
  method SetMcpServerEnabledInConfig(content: string, name: string, enabled: bool) returns (r: string)
    ensures r == WithEnabled(content, name, enabled)
  {
    hide IsEnabledLine, FlagLine, ServerBlocks, EditInner, Join, EditAt, FindMcpBlock, FirstEnabled;
    var lines := SplitLines(content);
    var block := FindBlock(lines);
    if block.None? {
      return content;
    }
    var b := block.value;
    var section := lines[b.startLine..b.endLine];
    var servers := GroupServers(section);
    assert section[1..] == lines[b.startLine + 1..b.endLine];
    var i := 0;
    while i < |servers|
      invariant 0 <= i <= |servers|
      invariant forall j :: 0 <= j < i ==> servers[j].name != name
    {
      if servers[i].name == name {
        assert FirstNamed(servers, name) == i;
        EditsTheSection(lines, b, name, enabled);
        var start := b.startLine + servers[i].startOffset;
        var at := FirstEnabled(servers[i].lines);
        var edited := EditAt(lines, start, servers[i], enabled);
        return Join(edited);
      }
      i := i + 1;
    }
    assert FirstNamed(servers, name) == -1;
    return content;
  }

  lemma EditsTheSection(lines: seq<string>, block: McpBlock, name: string, enabled: bool)
    requires FindMcpBlock(lines) == Some(block) && FirstNamed(BlocksOf(lines, block), name) != -1
    ensures
      var server := BlocksOf(lines, block)[FirstNamed(BlocksOf(lines, block), name)];
      && block.startLine + server.startOffset + |server.lines| <= |lines|
      && EditAt(lines, block.startLine + server.startOffset, server, enabled) == EnabledLines(lines, name, enabled)
  {
    hide IsEnabledLine, FlagLine, FindMcpBlock, FirstEnabled, ServerBlocks, EditInner, EditAt;
    var pre, inner, post := lines[..block.startLine + 1], lines[block.startLine + 1..block.endLine], lines[block.endLine..];
    OffsetsShift(inner, 1, block.startLine, name);
    assert pre + inner + post == lines;
    ServerStandsAt(pre, inner, post, name, enabled);
    var here := BlocksOf(lines, block);
    var there := ServerBlocks(inner, |pre|);
    var k := FirstNamed(here, name);
    SameEdit(lines, there[k].startOffset, there[k], here[k], enabled);
  }

  lemma SameEdit(lines: seq<string>, start: nat, a: ServerBlock, b: ServerBlock, enabled: bool)
    requires a.lines == b.lines && start + |a.lines| <= |lines|
    ensures EditAt(lines, start, a, enabled) == EditAt(lines, start, b, enabled)
  {
    hide FirstEnabled, FlagLine;
  }

  ghost predicate SameButOffsets(here: seq<ServerBlock>, there: seq<ServerBlock>, shift: nat, name: string) {
    && |here| == |there|
    && FirstNamed(here, name) == FirstNamed(there, name)
    && forall i :: 0 <= i < |here| ==>
      && here[i].name == there[i].name && here[i].lines == there[i].lines
      && there[i].startOffset == here[i].startOffset + shift
  }

  lemma {:induction false} OffsetsShift(lines: seq<string>, offset: nat, shift: nat, name: string)
    ensures SameButOffsets(ServerBlocks(lines, offset), ServerBlocks(lines, offset + shift), shift, name)
    decreases |lines|
  {
    hide ServerName, DropBlankEnd, Blank, InnerLength, ServerBlocks, SameButOffsets;
    if lines == [] {
      NoServers(offset);
      NoServers(offset + shift);
      NoneShifted(shift, name);
    } else {
      match ServerName(lines[0]) {
        case None =>
          assert lines == [lines[0]] + lines[1..];
          NoGroup(lines[0], lines[1..], offset);
          NoGroup(lines[0], lines[1..], offset + shift);
          OffsetsShift(lines[1..], offset + 1, shift, name);
        case Some(n) =>
          var k := InnerLength(lines[1..]);
          OpensGroup(lines, n, k, offset);
          OpensGroup(lines, n, k, offset + shift);
          OffsetsShift(lines[1 + k..], offset + 1 + k, shift, name);
          var mine := [lines[0]] + DropBlankEnd(lines[1..1 + k]);
          OneMoreShifted(
            ServerBlock(n, mine, offset), ServerBlock(n, mine, offset + shift),
            ServerBlocks(lines[1 + k..], offset + 1 + k), ServerBlocks(lines[1 + k..], offset + 1 + k + shift), shift, name);
      }
    }
  }

  lemma NoneShifted(shift: nat, name: string)
    ensures SameButOffsets([], [], shift, name)
  {
  }

  lemma OneMoreShifted(
    a: ServerBlock, b: ServerBlock, here: seq<ServerBlock>, there: seq<ServerBlock>, shift: nat, name: string)
    requires a.name == b.name && a.lines == b.lines && b.startOffset == a.startOffset + shift
    requires SameButOffsets(here, there, shift, name)
    ensures SameButOffsets([a] + here, [b] + there, shift, name)
  {
    assert ([a] + here)[1..] == here && ([b] + there)[1..] == there;
  }
}
