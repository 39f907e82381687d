/** Reading a config document after a server was removed from it. */
module McpRemoveLaws {
  import opened McpConfig
  import opened McpEdits
  import opened McpLaws
  import opened McpRejoin
  import opened McpScalars
  import opened McpUpsertLaws
  import opened Text
  import opened TextLines
  import opened Wrappers

  // ---------------------------------------------------------------------
  // Blank lines in a row read as one
  // ---------------------------------------------------------------------

  const TWO: seq<string> := ["", ""]
  const ONE: seq<string> := [""]

  lemma EmptyLine()
    ensures FieldLine("") == None && ItemLine("") == None && EnvLine("") == None && ServerName("") == None
    ensures !IsMcpHeader("") && !EndsBlock("") && Blank("")
  {
    BlankIsNoServer("");
  }

  lemma {:induction false} ItemsStopAtEmpty(a: seq<string>, b: seq<string>)
    ensures Items(a + ONE + b) == Items(a + TWO + b) && |Items(a + ONE + b)| <= |a|
  {
    hide ItemLine, ParsedScalar;
    EmptyLine();
    if a != [] {
      assert (a + ONE + b)[1..] == a[1..] + ONE + b;
      assert (a + TWO + b)[1..] == a[1..] + TWO + b;
      ItemsStopAtEmpty(a[1..], b);
    }
  }

  lemma {:induction false} EnvStopsAtEmpty(a: seq<string>, b: seq<string>, env: map<string, string>)
    ensures EnvOf(a + ONE + b, env) == EnvOf(a + TWO + b, env)
    ensures EnvLines(a + ONE + b) == EnvLines(a + TWO + b) <= |a|
    decreases |a|
  {
    hide EnvLine, ParsedScalar;
    EmptyLine();
    if a != [] {
      assert (a + ONE + b)[1..] == a[1..] + ONE + b;
      assert (a + TWO + b)[1..] == a[1..] + TWO + b;
      var entry := EnvLine(a[0]);
      EnvStopsAtEmpty(a[1..], b, if entry.Some? then env[entry.value.0 := ParsedScalar(entry.value.1)] else env);
    }
  }

  lemma FieldIgnoresExtraEmpty(key: string, raw: string, a: seq<string>, b: seq<string>, fields: Fields)
    ensures
      var r := ReadField(key, raw, a + ONE + b, fields);
      r == ReadField(key, raw, a + TWO + b, fields) && r.1 <= |a|
  {
    hide Items, EnvOf, EnvLines, ParsedScalar, ParsedInlineList, Lower, OpensInlineList, Blank;
    ItemsStopAtEmpty(a, b);
    EnvStopsAtEmpty(a, b, map[]);
  }

  /** A second blank line in a row tells a server's reader nothing. */
  lemma {:induction false} FieldsIgnoreExtraEmpty(a: seq<string>, b: seq<string>, fields: Fields)
    ensures ReadFields(a + TWO + b, fields) == ReadFields(a + ONE + b, fields)
    decreases |a|
  {
    hide FieldLine, ReadField, ReadFields;
    if a == [] {
      FrontEmpty(b, fields);
    } else {
      var one, two := a[1..] + ONE + b, a[1..] + TWO + b;
      assert a + ONE + b == [a[0]] + one && a + TWO + b == [a[0]] + two;
      match FieldLine(a[0])
      case None =>
        SkipsOther(a[0], one, fields);
        SkipsOther(a[0], two, fields);
        FieldsIgnoreExtraEmpty(a[1..], b, fields);
      case Some((key, raw)) =>
        FieldIgnoresExtraEmpty(key, raw, a[1..], b, fields);
        var r := ReadField(key, raw, one, fields);
        ReadOn(a[0], one, key, raw, fields);
        ReadOn(a[0], two, key, raw, fields);
        DropsInto(a[1..], ONE, b, r.1);
        DropsInto(a[1..], TWO, b, r.1);
        FieldsIgnoreExtraEmpty(a[1..][r.1..], b, r.0);
    }
  }

  lemma DropsInto(a: seq<string>, mid: seq<string>, b: seq<string>, n: nat)
    requires n <= |a|
    ensures (a + mid + b)[n..] == a[n..] + mid + b
  {
  }

  lemma FrontEmpty(b: seq<string>, fields: Fields)
    ensures ReadFields([] + TWO + b, fields) == ReadFields([] + ONE + b, fields)
  {
    hide ReadFields;
    assert [] + TWO + b == [""] + ([""] + b) && [] + ONE + b == [""] + b;
    SkipsEmpty([""] + b, fields);
    SkipsEmpty(b, fields);
  }

  lemma SkipsOther(line: string, rest: seq<string>, fields: Fields)
    requires FieldLine(line).None?
    ensures ReadFields([line] + rest, fields) == ReadFields(rest, fields)
  {
    hide FieldLine;
    assert ([line] + rest)[1..] == rest;
  }

  lemma SkipsEmpty(rest: seq<string>, fields: Fields)
    ensures ReadFields([""] + rest, fields) == ReadFields(rest, fields)
  {
    EmptyLine();
    SkipsOther("", rest, fields);
  }

  lemma {:induction false} DropKeepsFront(a: seq<string>, b: seq<string>)
    requires DropBlankEnd(b) != []
    ensures DropBlankEnd(a + b) == a + DropBlankEnd(b)
  {
    hide Blank;
    if b != [] {
      var last := |b| - 1;
      assert (a + b)[|a| + last] == b[last];
      assert (a + b)[..|a| + last] == a + b[..last];
      if Blank(b[last]) {
        DropKeepsFront(a, b[..last]);
      }
    }
  }

  lemma {:induction false} DropsAllBlank(a: seq<string>, blanks: seq<string>)
    requires AllBlank(blanks)
    ensures DropBlankEnd(a + blanks) == DropBlankEnd(a)
  {
    hide Blank;
    if blanks == [] {
      assert a + blanks == a;
    } else {
      var last := |blanks| - 1;
      assert (a + blanks)[|a| + last] == blanks[last];
      assert (a + blanks)[..|a| + last] == a + blanks[..last];
      DropsAllBlank(a, blanks[..last]);
    }
  }

  /** The fields of a server with its blank end dropped, one or two blank lines inside. */
  lemma InnerIgnoresExtraEmpty(a: seq<string>, b: seq<string>)
    ensures ReadFields(DropBlankEnd(a + TWO + b), NO_FIELDS) == ReadFields(DropBlankEnd(a + ONE + b), NO_FIELDS)
  {
    hide Blank, ReadFields;
    EmptyLine();
    if DropBlankEnd(b) == [] {
      assert AllBlank(b);
      assert AllBlank(TWO + b) && AllBlank(ONE + b);
      assert a + TWO + b == a + (TWO + b) && a + ONE + b == a + (ONE + b);
      DropsAllBlank(a, TWO + b);
      DropsAllBlank(a, ONE + b);
    } else {
      DropKeepsFront(a + TWO, b);
      DropKeepsFront(a + ONE, b);
      FieldsIgnoreExtraEmpty(a, DropBlankEnd(b), NO_FIELDS);
    }
  }

  lemma {:induction false} InnerLengthOf(a: seq<string>, mid: seq<string>, b: seq<string>)
    requires AllBlank(mid) && mid != []
    ensures
      var n := InnerLength(a + mid + b);
      if InnerLength(a) < |a| then n == InnerLength(a) else n == |a| + |mid| + InnerLength(b)
  {
    hide ServerName, Blank;
    if a == [] {
      forall i | 0 <= i < |mid|
        ensures ServerName(mid[i]).None?
      {
        BlankIsNoServer(mid[i]);
      }
      InnerRun(mid, b);
      assert [] + mid + b == mid + b;
    } else {
      assert (a + mid + b)[1..] == a[1..] + mid + b;
      InnerLengthOf(a[1..], mid, b);
    }
  }

  /** The servers of a section do not depend on whether one or two blank lines stand in a row. */
  lemma {:induction false} BlocksIgnoreExtraEmpty(a: seq<string>, b: seq<string>, i: nat, j: nat)
    ensures Infos(ServerBlocks(a + TWO + b, i)) == Infos(ServerBlocks(a + ONE + b, j))
    decreases |a|, 0
  {
    hide ServerName, Blank, DropBlankEnd, BlockInfo, InnerLength, ServerBlocks;
    if a == [] {
      EmptyFront(b, i, j);
    } else {
      var one, two := a[1..] + ONE + b, a[1..] + TWO + b;
      assert a + ONE + b == [a[0]] + one && a + TWO + b == [a[0]] + two;
      match ServerName(a[0])
      case None =>
        NoGroup(a[0], one, j);
        NoGroup(a[0], two, i);
        BlocksIgnoreExtraEmpty(a[1..], b, i + 1, j + 1);
      case Some(name) =>
        EmptyLine();
        InnerLengthOf(a[1..], ONE, b);
        InnerLengthOf(a[1..], TWO, b);
        Group(a[0], two, name, i);
        Group(a[0], one, name, j);
        if InnerLength(a[1..]) < |a[1..]| {
          GroupEndsBefore(a[0], a[1..], b, name, i, j);
        } else {
          GroupGoesOn(a[0], a[1..], b, name, i, j);
        }
    }
  }

  lemma EmptyFront(b: seq<string>, i: nat, j: nat)
    ensures Infos(ServerBlocks([] + TWO + b, i)) == Infos(ServerBlocks([] + ONE + b, j))
  {
    hide Blank, DropBlankEnd, BlockInfo, InnerLength, ServerBlocks, Infos;
    EmptyLine();
    assert [] + TWO + b == [""] + ([""] + b) && [] + ONE + b == [""] + b;
    NoGroup("", [""] + b, i);
    NoGroup("", b, i + 1);
    NoGroup("", b, j);
    OffsetIsIrrelevant(b, i + 2, j + 1);
  }

  lemma Group(line: string, rest: seq<string>, name: string, offset: nat)
    requires ServerName(line) == Some(name)
    ensures
      var n := InnerLength(rest);
      ServerBlocks([line] + rest, offset)
        == [ServerBlock(name, [line] + DropBlankEnd(rest[..n]), offset)] + ServerBlocks(rest[n..], offset + 1 + n)
  {
    hide ServerName, DropBlankEnd, InnerLength, Blank, ServerBlocks;
    var lines := [line] + rest;
    var n := InnerLength(rest);
    assert lines[1..] == rest;
    assert lines[1..1 + n] == rest[..n] && lines[1 + n..] == rest[n..];
    OpensGroup(lines, name, n, offset);
  }

  /** The first server ends before the blank lines, so they fall to a later one. */
  lemma GroupEndsBefore(line: string, a: seq<string>, b: seq<string>, name: string, i: nat, j: nat)
    requires ServerName(line) == Some(name) && InnerLength(a) < |a|
    requires InnerLength(a + TWO + b) == InnerLength(a) == InnerLength(a + ONE + b)
    ensures Infos(ServerBlocks([line] + (a + TWO + b), i)) == Infos(ServerBlocks([line] + (a + ONE + b), j))
    decreases |a|, 1
  {
    hide ServerName, Blank, DropBlankEnd, BlockInfo, InnerLength, ServerBlocks, Infos;
    var n := InnerLength(a);
    var two, one := a + TWO + b, a + ONE + b;
    Group(line, two, name, i);
    Group(line, one, name, j);
    assert two[..n] == a[..n] == one[..n];
    assert two[n..] == a[n..] + TWO + b && one[n..] == a[n..] + ONE + b;
    BlocksIgnoreExtraEmpty(a[n..], b, i + 1 + n, j + 1 + n);
    var mine := [line] + DropBlankEnd(a[..n]);
    SameInfo(ServerBlock(name, mine, i), ServerBlock(name, mine, j));
    InfosCons(ServerBlock(name, mine, i), ServerBlocks(two[n..], i + 1 + n));
    InfosCons(ServerBlock(name, mine, j), ServerBlocks(one[n..], j + 1 + n));
  }

  /** The blank lines stand inside the first server, or at its end. */
  lemma GroupGoesOn(line: string, a: seq<string>, b: seq<string>, name: string, i: nat, j: nat)
    requires ServerName(line) == Some(name)
    requires InnerLength(a + TWO + b) == |a| + 2 + InnerLength(b)
    requires InnerLength(a + ONE + b) == |a| + 1 + InnerLength(b)
    ensures Infos(ServerBlocks([line] + (a + TWO + b), i)) == Infos(ServerBlocks([line] + (a + ONE + b), j))
  {
    hide ServerName, Blank, DropBlankEnd, InnerLength, ServerBlocks, Infos, ReadFields;
    var m := InnerLength(b);
    var two, one := a + TWO + b, a + ONE + b;
    Group(line, two, name, i);
    Group(line, one, name, j);
    Stretch(a, TWO, b, m);
    Stretch(a, ONE, b, m);
    InnerIgnoresExtraEmpty(a, b[..m]);
    OffsetIsIrrelevant(b[m..], i + 1 + |a| + 2 + m, j + 1 + |a| + 1 + m);
    var x := ServerBlock(name, [line] + DropBlankEnd(a + TWO + b[..m]), i);
    var y := ServerBlock(name, [line] + DropBlankEnd(a + ONE + b[..m]), j);
    assert x.lines[1..] == DropBlankEnd(a + TWO + b[..m]) && y.lines[1..] == DropBlankEnd(a + ONE + b[..m]);
    InfosCons(x, ServerBlocks(b[m..], i + 1 + |a| + 2 + m));
    InfosCons(y, ServerBlocks(b[m..], j + 1 + |a| + 1 + m));
  }

  lemma Stretch(a: seq<string>, mid: seq<string>, b: seq<string>, m: nat)
    requires m <= |b|
    ensures (a + mid + b)[..|a| + |mid| + m] == a + mid + b[..m]
    ensures (a + mid + b)[|a| + |mid| + m..] == b[m..]
  {
  }

  // ---------------------------------------------------------------------
  // Whole documents
  // ---------------------------------------------------------------------

  /** Lines in front of the first header are not part of any server. */
  lemma FrontIsIgnored(pre: seq<string>, rest: seq<string>)
    requires NoHeader(pre)
    ensures ServersIn(pre + rest) == ServersIn(rest)
  {
    hide IsMcpHeader, EndsBlock, ServerBlocks, Infos, BlockLength;
    var lines := pre + rest;
    assert forall i :: 0 <= i < |pre| ==> lines[i] == pre[i];
    assert forall i :: |pre| <= i < |lines| ==> lines[i] == rest[i - |pre|];
    var h := FindHeader(rest, 0);
    if h == -1 {
      assert FindHeader(lines, 0) == -1;
    } else {
      assert lines[|pre| + h] == rest[h];
      assert FindHeader(lines, 0) == |pre| + h;
      assert lines[|pre| + h + 1..] == rest[h + 1..];
      var n := BlockLength(rest[h + 1..]);
      assert lines[|pre| + h + 1..|pre| + h + 1 + n] == rest[h + 1..h + 1 + n];
    }
  }

  lemma {:induction false} BlockLengthOf(a: seq<string>, mid: seq<string>, b: seq<string>)
    requires AllBlank(mid)
    ensures
      var n := BlockLength(a + mid + b);
      if BlockLength(a) < |a| then n == BlockLength(a) else n == |a| + |mid| + BlockLength(b)
  {
    hide EndsBlock, Blank;
    if a == [] {
      assert [] + mid + b == mid + b;
      BlanksEndNothing(mid, b);
    } else {
      assert (a + mid + b)[1..] == a[1..] + mid + b;
      BlockLengthOf(a[1..], mid, b);
    }
  }

  lemma {:induction false} BlanksEndNothing(mid: seq<string>, b: seq<string>)
    requires AllBlank(mid)
    ensures BlockLength(mid + b) == |mid| + BlockLength(b)
  {
    hide EndsBlock, Blank;
    if mid == [] {
      assert mid + b == b;
    } else {
      BlankIsNoServer(mid[0]);
      assert (mid + b)[1..] == mid[1..] + b;
      BlanksEndNothing(mid[1..], b);
    }
  }

  /** The servers of a document that starts with its section's header. */
  lemma HeaderFirst(header: string, rest: seq<string>)
    requires IsMcpHeader(header)
    ensures ServersIn([header] + rest) == Infos(ServerBlocks(rest[..BlockLength(rest)], 1))
  {
    hide IsMcpHeader, EndsBlock, ServerBlocks, Infos;
    var n := BlockLength(rest);
    assert [header] + rest == [] + [header] + rest[..n] + rest[n..];
    SectionIsRead([], header, rest[..n], rest[n..]);
  }

  lemma SectionIgnoresExtraEmpty(header: string, a: seq<string>, b: seq<string>)
    requires IsMcpHeader(header)
    ensures ServersIn([header] + (a + TWO + b)) == ServersIn([header] + (a + ONE + b))
  {
    hide IsMcpHeader, EndsBlock, ServerBlocks, Infos, BlockLength, ServersIn, Blank;
    EmptyLine();
    HeaderFirst(header, a + TWO + b);
    HeaderFirst(header, a + ONE + b);
    BlockLengthOf(a, TWO, b);
    BlockLengthOf(a, ONE, b);
    var n := BlockLength(a);
    if n < |a| {
      assert (a + TWO + b)[..n] == a[..n] == (a + ONE + b)[..n];
    } else {
      var m := BlockLength(b);
      Stretch(a, TWO, b, m);
      Stretch(a, ONE, b, m);
      BlocksIgnoreExtraEmpty(a, b[..m], 1, 1);
    }
  }

  /** One or two blank lines in a row: the document reads the same. */
  lemma DocumentIgnoresExtraEmpty(a: seq<string>, b: seq<string>)
    ensures ServersIn(a + TWO + b) == ServersIn(a + ONE + b)
  {
    hide IsMcpHeader, ServersIn;
    EmptyLine();
    var h := FindHeader(a, 0);
    if h == -1 {
      assert NoHeader(a + TWO) && NoHeader(a + ONE);
      FrontIsIgnored(a + TWO, b);
      FrontIsIgnored(a + ONE, b);
    } else {
      var pre, later := a[..h], a[h + 1..];
      assert a + TWO + b == pre + ([a[h]] + (later + TWO + b));
      assert a + ONE + b == pre + ([a[h]] + (later + ONE + b));
      FrontIsIgnored(pre, [a[h]] + (later + TWO + b));
      FrontIsIgnored(pre, [a[h]] + (later + ONE + b));
      SectionIgnoresExtraEmpty(a[h], later, b);
    }
  }

  /** The lines of a text that something follows behind a line feed. */
  function Fronts(s: string): seq<string> {
    var l := Split(s);
    seq(|l|, i requires 0 <= i < |l| => DropReturn(l[i]))
  }

  lemma LinesAppend(a: string, b: string)
    ensures SplitLines(a + "\n" + b) == Fronts(a) + SplitLines(b)
  {
    hide DropReturn;
    SplitAppend(a, b);
  }

  lemma EmptyFronts()
    ensures Fronts("") == [""]
  {
  }

  lemma FeedsInARow(a: string, b: string)
    ensures SplitLines(a + "\n\n\n" + b) == Fronts(a) + TWO + SplitLines(b)
    ensures SplitLines(a + "\n\n" + b) == Fronts(a) + ONE + SplitLines(b)
  {
    hide Fronts, SplitLines;
    EmptyFronts();
    LinesAppend("", b);
    LinesAppend("", "\n" + b);
    assert "" + "\n" + b == "\n" + b && "" + "\n" + ("\n" + b) == "\n\n" + b;
    LinesAppend(a, "\n" + b);
    LinesAppend(a, "\n\n" + b);
    assert a + "\n" + ("\n" + b) == a + "\n\n" + b;
    assert a + "\n" + ("\n\n" + b) == a + "\n\n\n" + b;
    assert Fronts(a) + ([""] + SplitLines(b)) == Fronts(a) + ONE + SplitLines(b);
    assert Fronts(a) + ([""] + ([""] + SplitLines(b))) == Fronts(a) + TWO + SplitLines(b);
  }

  /** Collapsing runs of line feeds changes nothing a reader sees, whatever stands in front. */
  lemma {:induction false} CollapseReadsTheSame(p: string, s: string)
    ensures ParseMcpServersFromConfig(p + CollapseFeeds(s)) == ParseMcpServersFromConfig(p + s)
    decreases |s|
  {
    hide ParseMcpServersFromConfig;
    if s != [] {
      if "\n\n\n" <= s {
        CollapseReadsTheSame(p, s[1..]);
        ThreeFeeds(p, s[3..]);
        FeedsInFront(p, s);
      } else {
        CollapseReadsTheSame(p + [s[0]], s[1..]);
        CharInFront(p, s);
        assert p + [s[0]] + CollapseFeeds(s[1..]) == p + CollapseFeeds(s);
      }
    }
  }

  lemma FeedsInFront(p: string, s: string)
    requires "\n\n\n" <= s
    ensures p + s == p + "\n\n\n" + s[3..] && p + s[1..] == p + "\n\n" + s[3..]
  {
    assert s == "\n\n\n" + s[3..];
    assert s[1..] == "\n\n" + s[3..];
  }

  lemma CharInFront(p: string, s: string)
    requires s != []
    ensures p + [s[0]] + s[1..] == p + s
  {
  }

  lemma ThreeFeeds(p: string, b: string)
    ensures ParseMcpServersFromConfig(p + "\n\n\n" + b) == ParseMcpServersFromConfig(p + "\n\n" + b)
  {
    hide ServersIn, SplitLines, Fronts;
    FeedsInARow(p, b);
    DocumentIgnoresExtraEmpty(Fronts(p), SplitLines(b));
  }

  // ---------------------------------------------------------------------
  // Removal
  // ---------------------------------------------------------------------

  function WithoutInfos(infos: seq<ServerInfo>, name: string): seq<ServerInfo> {
    if infos == [] then [] else (if infos[0].name != name then [infos[0]] else []) + WithoutInfos(infos[1..], name)
  }

  lemma {:induction false} InfosWithout(blocks: seq<ServerBlock>, name: string)
    requires Good(blocks)
    ensures Good(Without(blocks, name))
    ensures forall b :: b in blocks + Without(blocks, name) ==> b.lines != []
    ensures Infos(Without(blocks, name)) == WithoutInfos(Infos(blocks), name)
  {
    hide WellShaped, Harmless, BlockInfo;
    forall b | b in blocks
      ensures b.lines != []
    {
      WellShapedHasLines(b);
    }
    if blocks != [] {
      InfosWithout(blocks[1..], name);
      InfoKeepsName(blocks[0]);
      var later := Without(blocks[1..], name);
      if blocks[0].name != name {
        InfosCons(blocks[0], later);
      } else {
        assert [] + later == later;
      }
    }
  }

  lemma {:induction false} NothingToRemove(blocks: seq<ServerBlock>, name: string)
    requires |Without(blocks, name)| == |blocks|
    ensures Without(blocks, name) == blocks
  {
    if blocks != [] {
      NothingToRemove(blocks[1..], name);
    }
  }

  lemma {:induction false} FlatWithoutHasNoFeeds(blocks: seq<ServerBlock>, name: string)
    requires forall i :: 0 <= i < |blocks| ==> NoFeeds(blocks[i].lines)
    ensures NoFeeds(Flat(Without(blocks, name)))
  {
    hide NoFeed;
    if blocks != [] {
      FlatWithoutHasNoFeeds(blocks[1..], name);
      if blocks[0].name != name {
        assert ([blocks[0]] + Without(blocks[1..], name))[1..] == Without(blocks[1..], name);
      } else {
        assert [] + Without(blocks[1..], name) == Without(blocks[1..], name);
      }
    }
  }

  lemma RemovedInHasNoFeeds(lines: seq<string>, block: McpBlock, name: string)
    requires NoFeeds(lines) && block.startLine < block.endLine <= |lines|
    ensures NoFeeds(RemovedIn(lines, block, name))
  {
    hide NoFeed, ServerBlocks, Blank, Flat;
    BareLinesAreClean();
    GroupsHaveNoFeeds(lines[block.startLine + 1..block.endLine], 1);
    var blocks := BlocksOf(lines, block);
    FlatWithoutHasNoFeeds(blocks, name);
    ConcatHasNoFeeds([SECTION], Flat(Without(blocks, name)));
    ConcatHasNoFeeds(lines[..block.startLine], [SECTION] + Flat(Without(blocks, name)));
    ConcatHasNoFeeds(lines[..block.startLine] + ([SECTION] + Flat(Without(blocks, name))), Gap(lines, block.endLine));
  }

  lemma JoinedLinesRead(lines: seq<string>)
    requires NoFeeds(lines)
    ensures ParseMcpServersFromConfig(CollapseFeeds(Join(lines))) == ServersIn(Reread(lines, true))
  {
    hide ServersIn, NoFeeds, SplitLines, CollapseFeeds;
    CollapseReadsTheSame("", Join(lines));
    assert "" + CollapseFeeds(Join(lines)) == CollapseFeeds(Join(lines));
    assert "" + Join(lines) == Join(lines);
    if lines == [] {
      NothingReads();
      RereadNothing(true);
    } else {
      JoinedAreReread(lines);
    }
  }

  lemma NothingReads()
    ensures ServersIn(SplitLines("")) == [] && ServersIn([]) == []
  {
    EmptyLine();
    assert SplitLines("") == [""];
  }

  /** What comes behind the section, as it is read once joined: another section of the same header has servers. */
  function LaterServers(lines: seq<string>, block: McpBlock): seq<ServerInfo>
    requires block.endLine <= |lines|
  {
    ServersIn(Reread(lines[block.endLine..], true))
  }

  /** The removal, done to the section, shows nothing else once the lines are joined. */
  predicate RemovalShows(lines: seq<string>, block: McpBlock, name: string)
    requires block.startLine < block.endLine <= |lines|
  {
    var remaining := Without(BlocksOf(lines, block), name);
    if remaining == [] then LaterServers(lines, block) == [] else BlocksSteady(remaining, block.endLine == |lines|)
  }

  /**
   * There is nothing to remove; or the section goes with its last server and none
   * takes its place; or the lines of each remaining server read alike once joined.
   */
  predicate RemovesExactly(content: string, name: string) {
    var lines := SplitLines(content);
    match FindMcpBlock(lines)
    case None => true
    case Some(block) =>
      |Without(BlocksOf(lines, block), name)| == |BlocksOf(lines, block)| || RemovalShows(lines, block, name)
  }

  /** After a removal every document reads as before without that server, exactly under that condition. */
  lemma ReadAfterRemoveExactly(content: string, name: string)
    ensures (ParseMcpServersFromConfig(Removed(content, name)) == WithoutInfos(ParseMcpServersFromConfig(content), name))
      <==> RemovesExactly(content, name)
  {
    hide ServersIn, FindMcpBlock, Join, CollapseFeeds, RemovedIn, SplitLines, Without, ServerBlocks, RemovalShows;
    hide WithoutInfos;
    var lines := SplitLines(content);
    match FindMcpBlock(lines)
    case None =>
      NoSectionNoServers(lines);
      NothingWithout(name);
    case Some(block) =>
      var blocks := BlocksOf(lines, block);
      SectionParts(lines, block);
      BlocksAreGood(lines, block);
      InfosWithout(blocks, name);
      NothingWithout(name);
      if |Without(blocks, name)| == |blocks| {
        NothingToRemove(blocks, name);
      } else {
        JoinedRemoval(lines, block, name);
      }
  }

  lemma JoinedRemoval(lines: seq<string>, block: McpBlock, name: string)
    requires FindMcpBlock(lines) == Some(block) && NoFeeds(lines)
    ensures (ParseMcpServersFromConfig(CollapseFeeds(Join(RemovedIn(lines, block, name)))) == WithoutInfos(ServersIn(lines), name))
      <==> RemovalShows(lines, block, name)
  {
    hide WellShaped, EndsBlock, IsMcpHeader, ServersIn, Infos, ServerBlocks, FindMcpBlock, Harmless, Without, NoFeeds,
      CollapseFeeds, Join, ParseMcpServersFromConfig, Reread, BlocksSteady, WithoutInfos;
    var blocks := BlocksOf(lines, block);
    var pre, post, remaining := lines[..block.startLine], lines[block.endLine..], Without(blocks, name);
    SectionParts(lines, block);
    BlocksAreGood(lines, block);
    InfosWithout(blocks, name);
    RemovedInHasNoFeeds(lines, block, name);
    if remaining == [] {
      NothingWithout(name);
      NoInfos(remaining);
      JoinedLinesRead(pre + post);
      RereadAppend(pre, post, true);
      RereadKeepsNoHeader(pre, post == []);
      FrontIsIgnored(Reread(pre, post == []), Reread(post, true));
    } else {
      var gap := Gap(lines, block.endLine);
      GapIsBlank(lines, block.endLine);
      FlatIsHarmless(remaining);
      SectionHeads();
      Regrouped(pre, SECTION, Flat(remaining), gap, post);
      var next := RemovedIn(lines, block, name);
      WrittenBlocksExactly(next, pre, SECTION, remaining, gap, post);
      Collapsed(next);
    }
  }

  lemma NoInfos(blocks: seq<ServerBlock>)
    requires blocks == []
    ensures Infos(blocks) == []
  {
  }

  lemma Collapsed(lines: seq<string>)
    ensures ParseMcpServersFromConfig(CollapseFeeds(Join(lines))) == ParseMcpServersFromConfig(Join(lines))
  {
    hide ParseMcpServersFromConfig, CollapseFeeds, Join;
    CollapseReadsTheSame("", Join(lines));
    assert "" + CollapseFeeds(Join(lines)) == CollapseFeeds(Join(lines));
    assert "" + Join(lines) == Join(lines);
  }

  lemma RereadKeepsNoHeader(lines: seq<string>, last: bool)
    requires NoHeader(lines)
    ensures NoHeader(Reread(lines, last))
  {
    hide IsMcpHeader;
    RereadKeepsShape(lines, last);
  }

  lemma NothingWithout(name: string)
    ensures WithoutInfos([], name) == [] && Without([], name) == []
  {
  }
}
