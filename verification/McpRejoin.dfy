/**
 * Reading lines again after they were joined: a carriage return left at the end
 * of a line was part of it before, and is part of the line break afterwards.
 */
module McpRejoin {
  import opened McpConfig
  import opened McpEdits
  import opened McpLaws
  import opened Text
  import opened TextLines
  import opened Wrappers

  // ---------------------------------------------------------------------
  // Joining and splitting again
  // ---------------------------------------------------------------------

  /** One trailing return gone from every line, but from the last one only if something follows it. */
  function Reread(lines: seq<string>, last: bool): seq<string> {
    seq(|lines|, i requires 0 <= i < |lines| => if last && i == |lines| - 1 then lines[i] else DropReturn(lines[i]))
  }

  predicate NoFeeds(lines: seq<string>) {
    forall i :: 0 <= i < |lines| ==> NoFeed(lines[i])
  }

  lemma JoinedAreReread(lines: seq<string>)
    requires lines != [] && NoFeeds(lines)
    ensures SplitLines(Join(lines)) == Reread(lines, true)
  {
    SplitJoin(lines);
  }

  lemma RereadAppend(a: seq<string>, b: seq<string>, last: bool)
    ensures Reread(a + b, last) == Reread(a, last && b == []) + Reread(b, last)
  {
    hide DropReturn;
  }

  lemma RereadSlice(lines: seq<string>, from: nat, until: nat)
    requires from <= until <= |lines|
    ensures Reread(lines, true)[from..until] == Reread(lines[from..until], until == |lines|)
  {
    hide DropReturn;
  }

  // ---------------------------------------------------------------------
  // What a trailing return does to the shape of a line
  // ---------------------------------------------------------------------

  lemma SpaceEndBeforeReturn(s: string, t: string, from: nat)
    requires s == t + "\r" && from <= |t|
    ensures SpaceEnd(s, from) == if SpaceEnd(t, from) == |t| then |s| else SpaceEnd(t, from)
    decreases |t| - from
  {
    if from < |t| {
      assert s[from] == t[from];
      SpaceEndBeforeReturn(s, t, from + 1);
    } else {
      assert s[from] == '\r';
    }
  }

  lemma KeyEndBeforeReturn(s: string, t: string, from: nat)
    requires s == t + "\r" && from <= |t|
    ensures KeyEnd(s, from) == KeyEnd(t, from)
    decreases |t| - from
  {
    if from < |t| {
      assert s[from] == t[from];
      KeyEndBeforeReturn(s, t, from + 1);
    } else {
      assert s[from] == '\r';
    }
  }

  lemma AfterColonBeforeReturn(s: string, t: string, from: nat)
    requires s == t + "\r" && from <= |t| && AfterColon(s, from).Some?
    ensures AfterColon(t, from).Some?
    ensures AfterColon(s, from).value == |s| || AfterColon(s, from) == AfterColon(t, from)
    ensures AfterColon(s, from).value == |s| ==> AfterColon(t, from).value == |t|
  {
    hide IsSpace;
    SpaceEndBeforeReturn(s, t, from);
    var colon := SpaceEnd(t, from);
    assert colon < |t|;
    assert s[colon] == t[colon];
    SpaceEndBeforeReturn(s, t, colon + 1);
  }

  lemma ServerNameBeforeReturn(s: string, t: string)
    requires s == t + "\r" && ServerName(s).Some?
    ensures ServerName(t) == ServerName(s)
  {
    hide IsSpace, SpaceEnd, KeyEnd, NameStart, AfterColon;
    var end := KeyEnd(s, 2);
    ReturnIsNoName();
    assert |t| > 2 && t[2] == s[2];
    KeyEndBeforeReturn(s, t, 2);
    AfterColonBeforeReturn(s, t, end);
    var after := AfterColon(s, end);
    if after.value < |s| {
      ReturnIsNoComment(s, after.value);
    }
    assert s[2..end] == t[2..end];
  }

  lemma ReturnIsNoComment(s: string, at: nat)
    requires at < |s| && s[|s| - 1] == '\r'
    ensures !NothingOrComment(s, at)
  {
    assert s[at..][|s| - 1 - at] == '\r';
  }

  lemma ReturnIsNoName()
    ensures !NameStart('\r')
  {
  }

  lemma TrimEndBeforeReturn(s: string, t: string)
    requires s == t + "\r"
    ensures TrimEnd(s) == TrimEnd(t)
  {
    assert s[|s| - 1] == '\r' && s[..|s| - 1] == t;
  }

  lemma EndsBlockBeforeReturn(s: string, t: string)
    requires s == t + "\r"
    ensures Blank(s) == Blank(t) && EndsBlock(s) == EndsBlock(t)
  {
    hide IsSpace;
    assert IsSpace('\r') by { ReturnIsSpace(); }
    assert forall i :: 0 <= i < |t| ==> s[i] == t[i];
    assert s[|t|] == '\r';
    SpaceEndBeforeReturn(s, t, 0);
    if j :| 1 <= j < |t| && t[j] == ':' {
      assert s[j] == ':';
    }
    if !Blank(t) {
      assert TrimStart(s)[0] == s[SpaceEnd(t)] == TrimStart(t)[0];
    }
  }

  lemma ReturnIsSpace()
    ensures IsSpace('\r')
  {
  }

  lemma DropKeepsShape(line: string)
    ensures IsMcpHeader(DropReturn(line)) == IsMcpHeader(line)
    ensures EndsBlock(DropReturn(line)) == EndsBlock(line)
    ensures Blank(DropReturn(line)) == Blank(line)
    ensures ServerName(line).Some? ==> ServerName(DropReturn(line)) == ServerName(line)
  {
    hide IsSpace, SpaceEnd, KeyEnd, NameStart, AfterColon, Blank, EndsBlock, ServerName, TrimEnd;
    if line != "" && line[|line| - 1] == '\r' {
      var t := line[..|line| - 1];
      assert line == t + "\r";
      TrimEndBeforeReturn(line, t);
      EndsBlockBeforeReturn(line, t);
      if ServerName(line).Some? {
        ServerNameBeforeReturn(line, t);
      }
    }
  }

  lemma RereadKeepsShape(lines: seq<string>, last: bool)
    ensures forall i :: 0 <= i < |lines| ==>
      && IsMcpHeader(Reread(lines, last)[i]) == IsMcpHeader(lines[i])
      && EndsBlock(Reread(lines, last)[i]) == EndsBlock(lines[i])
      && (ServerName(lines[i]).Some? ==> ServerName(Reread(lines, last)[i]) == ServerName(lines[i]))
  {
    hide IsMcpHeader, EndsBlock, ServerName, DropReturn;
    forall i | 0 <= i < |lines|
      ensures
        && IsMcpHeader(Reread(lines, last)[i]) == IsMcpHeader(lines[i])
        && EndsBlock(Reread(lines, last)[i]) == EndsBlock(lines[i])
        && (ServerName(lines[i]).Some? ==> ServerName(Reread(lines, last)[i]) == ServerName(lines[i]))
    {
      DropKeepsShape(lines[i]);
    }
  }

  // ---------------------------------------------------------------------
  // Sections stay sections
  // ---------------------------------------------------------------------

  lemma {:induction false} SameBlockLength(a: seq<string>, b: seq<string>)
    requires |a| == |b| && forall i :: 0 <= i < |a| ==> EndsBlock(a[i]) == EndsBlock(b[i])
    ensures BlockLength(a) == BlockLength(b)
  {
    hide EndsBlock;
    if a != [] {
      assert forall i :: 0 <= i < |a[1..]| ==> a[1..][i] == a[i + 1] && b[1..][i] == b[i + 1];
      SameBlockLength(a[1..], b[1..]);
    }
  }

  lemma SameHeader(a: seq<string>, b: seq<string>)
    requires |a| == |b| && forall i :: 0 <= i < |a| ==> IsMcpHeader(a[i]) == IsMcpHeader(b[i])
    ensures FindHeader(a, 0) == FindHeader(b, 0)
  {
    hide IsMcpHeader;
    var x, y := FindHeader(a, 0), FindHeader(b, 0);
    if x != -1 {
      assert IsMcpHeader(b[x]);
    }
    if y != -1 {
      assert IsMcpHeader(a[y]);
    }
  }

  lemma SameBlock(a: seq<string>, b: seq<string>)
    requires |a| == |b|
    requires forall i :: 0 <= i < |a| ==> IsMcpHeader(a[i]) == IsMcpHeader(b[i]) && EndsBlock(a[i]) == EndsBlock(b[i])
    ensures FindMcpBlock(a) == FindMcpBlock(b)
  {
    hide IsMcpHeader, EndsBlock, BlockLength;
    SameHeader(a, b);
    var start := FindHeader(a, 0);
    if start != -1 {
      var x, y := a[start + 1..], b[start + 1..];
      forall i | 0 <= i < |x|
        ensures EndsBlock(x[i]) == EndsBlock(y[i])
      {
        assert x[i] == a[start + 1 + i] && y[i] == b[start + 1 + i];
      }
      SameBlockLength(x, y);
    }
  }

  lemma RereadKeepsBlock(lines: seq<string>)
    ensures |Reread(lines, true)| == |lines| && FindMcpBlock(Reread(lines, true)) == FindMcpBlock(lines)
  {
    hide IsMcpHeader, EndsBlock, DropReturn, FindMcpBlock;
    RereadKeepsShape(lines, true);
    SameBlock(Reread(lines, true), lines);
  }

  /** The servers some lines of a section hold. */
  function Servers(lines: seq<string>): seq<ServerInfo> {
    Infos(ServerBlocks(lines, 1))
  }

  lemma RereadSection(lines: seq<string>, block: McpBlock)
    requires FindMcpBlock(lines) == Some(block)
    ensures ServersIn(Reread(lines, true)) == Servers(Reread(lines[block.startLine + 1..block.endLine], block.endLine == |lines|))
  {
    hide FindMcpBlock, Reread, Infos, ServerBlocks;
    RereadKeepsBlock(lines);
    RereadSlice(lines, block.startLine + 1, block.endLine);
  }

  // ---------------------------------------------------------------------
  // Servers one after another
  // ---------------------------------------------------------------------

  predicate StartsServer(lines: seq<string>) {
    lines == [] || ServerName(lines[0]).Some?
  }

  lemma NoneFirst(line: string, rest: seq<string>)
    requires ServerName(line).None?
    ensures Servers([line] + rest) == Servers(rest)
  {
    hide ServerName, ServerBlocks, Infos;
    NoGroup(line, rest, 1);
    OffsetIsIrrelevant(rest, 2, 1);
  }

  lemma GroupFirst(line: string, inner: seq<string>, rest: seq<string>)
    requires ServerName(line).Some? && StartsServer(rest)
    requires forall i :: 0 <= i < |inner| ==> ServerName(inner[i]).None?
    ensures
      var b := ServerBlock(ServerName(line).value, [line] + DropBlankEnd(inner), 1);
      Servers([line] + inner + rest) == [BlockInfo(b)] + Servers(rest)
  {
    hide *;
    FirstGroupIs([line] + inner + rest, line, inner, rest);
    RunsUpTo(inner, rest);
    GroupServes([line] + inner + rest, ServerName(line).value, inner, rest);
  }

  lemma RunsUpTo(inner: seq<string>, rest: seq<string>)
    requires StartsServer(rest) && forall i :: 0 <= i < |inner| ==> ServerName(inner[i]).None?
    ensures InnerLength(inner + rest) == |inner|
  {
    hide ServerName;
    InnerRun(inner, rest);
    NoInner(rest);
  }

  lemma GroupServes(lines: seq<string>, name: string, inner: seq<string>, rest: seq<string>)
    requires lines != [] && ServerName(lines[0]) == Some(name) && |inner| == InnerLength(lines[1..])
    requires inner == lines[1..1 + |inner|] && rest == lines[1 + |inner|..]
    ensures Servers(lines) == [BlockInfo(ServerBlock(name, [lines[0]] + DropBlankEnd(inner), 1))] + Servers(rest)
  {
    hide ServerName, ServerBlocks, Infos, DropBlankEnd, InnerLength, BlockInfo, Blank;
    OpensGroup(lines, name, |inner|, 1);
    OffsetIsIrrelevant(rest, 2 + |inner|, 1);
    InfosCons(ServerBlock(name, [lines[0]] + DropBlankEnd(inner), 1), ServerBlocks(rest, 2 + |inner|));
  }

  lemma FirstGroupIs(lines: seq<string>, line: string, inner: seq<string>, rest: seq<string>)
    requires lines == [line] + inner + rest
    ensures lines[0] == line && lines[1..] == inner + rest
    ensures lines[1..1 + |inner|] == inner && lines[1 + |inner|..] == rest
  {
  }

  lemma NoInner(rest: seq<string>)
    requires StartsServer(rest)
    ensures InnerLength(rest) == 0
  {
    hide ServerName;
  }

  /** Lines that open with a server are read on their own, whatever stands before them. */
  lemma {:induction false} ServersAppend(a: seq<string>, b: seq<string>)
    requires StartsServer(b)
    ensures Servers(a + b) == Servers(a) + Servers(b)
    decreases |a|
  {
    hide ServerName, Servers, DropBlankEnd, BlockInfo;
    if a == [] {
      assert a + b == b;
      NothingServes();
    } else if ServerName(a[0]).None? {
      ServersAppend(a[1..], b);
      NoneFirst(a[0], a[1..]);
      NoneFirst(a[0], a[1..] + b);
      assert [a[0]] + a[1..] == a && [a[0]] + (a[1..] + b) == a + b;
    } else {
      var n := InnerLength(a[1..]);
      var inner, rest := a[1..][..n], a[1..][n..];
      ServersAppend(rest, b);
      GroupFirst(a[0], inner, rest);
      GroupFirst(a[0], inner, rest + b);
      assert [a[0]] + inner + rest == a && [a[0]] + inner + (rest + b) == a + b;
    }
  }

  lemma NothingServes()
    ensures Servers([]) == []
  {
  }

  /** An empty line at the end is no part of a server. */
  lemma {:induction false} EmptyAtEnd(a: seq<string>)
    ensures Servers(a + [""]) == Servers(a)
    decreases |a|
  {
    hide ServerName, Servers, DropBlankEnd, BlockInfo;
    assert ServerName("").None? && Blank("") by { BlankIsNoServer(""); }
    if a == [] {
      NoneFirst("", []);
      assert a + [""] == [""] + [];
    } else if ServerName(a[0]).None? {
      EmptyAtEnd(a[1..]);
      NoneFirst(a[0], a[1..]);
      NoneFirst(a[0], a[1..] + [""]);
      assert [a[0]] + a[1..] == a && [a[0]] + (a[1..] + [""]) == a + [""];
    } else {
      var n := InnerLength(a[1..]);
      var inner, rest := a[1..][..n], a[1..][n..];
      GroupFirst(a[0], inner, rest);
      assert [a[0]] + inner + rest == a;
      if rest == [] {
        GroupFirst(a[0], inner + [""], []);
        DropsEmpty(inner);
        assert [a[0]] + (inner + [""]) + [] == a + [""];
        assert a == [a[0]] + inner + [];
      } else {
        EmptyAtEnd(rest);
        GroupFirst(a[0], inner, rest + [""]);
        assert [a[0]] + inner + (rest + [""]) == a + [""];
      }
    }
  }

  lemma DropsEmpty(inner: seq<string>)
    ensures DropBlankEnd(inner + [""]) == DropBlankEnd(inner)
  {
    assert (inner + [""])[..|inner|] == inner;
  }

  lemma RereadCons(lines: seq<string>, last: bool)
    requires lines != []
    ensures lines == [lines[0]] + lines[1..]
    ensures Reread(lines, last) == [Reread(lines, last)[0]] + Reread(lines[1..], last)
  {
    hide DropReturn;
  }

  /** Rereading never loses a server. */
  lemma {:induction false} RereadServesMore(lines: seq<string>, last: bool)
    ensures |Servers(Reread(lines, last))| >= |Servers(lines)|
    ensures StartsServer(lines) && lines != [] ==> StartsServer(Reread(lines, last)) && |Servers(lines)| > 0
    decreases |lines|
  {
    hide ServerName, Servers, DropBlankEnd, BlockInfo, DropReturn;
    if lines == [] {
      assert Reread(lines, last) == [];
    } else {
      RereadKeepsShape(lines, last);
      var rest := lines[1..];
      var first := Reread(lines, last)[0];
      RereadCons(lines, last);
      hide Reread;
      RereadServesMore(rest, last);
      CountFirst(lines[0], rest);
      CountFirst(first, Reread(rest, last));
    }
  }

  lemma CountFirst(line: string, rest: seq<string>)
    ensures |Servers([line] + rest)| == |Servers(rest)| + if ServerName(line).Some? then 1 else 0
  {
    hide ServerName, Servers, DropBlankEnd, BlockInfo;
    if ServerName(line).None? {
      NoneFirst(line, rest);
    } else {
      var n := InnerLength(rest);
      GroupFirst(line, rest[..n], rest[n..]);
      assert [line] + rest[..n] + rest[n..] == [line] + rest;
      ServersAppend(rest[..n], rest[n..]);
      assert rest[..n] + rest[n..] == rest;
      NoServersIn(rest[..n]);
    }
  }

  lemma {:induction false} NoServersIn(lines: seq<string>)
    requires forall i :: 0 <= i < |lines| ==> ServerName(lines[i]).None?
    ensures Servers(lines) == []
  {
    hide ServerName, Servers;
    if lines == [] {
      NothingServes();
    } else {
      NoneFirst(lines[0], lines[1..]);
      NoServersIn(lines[1..]);
      assert [lines[0]] + lines[1..] == lines;
    }
  }

  // ---------------------------------------------------------------------
  // When rereading changes nothing
  // ---------------------------------------------------------------------

  /** The line still opens no server when its trailing return is gone. */
  predicate StaysOutside(line: string, last: bool) {
    last || ServerName(DropReturn(line)).None?
  }

  /** The lines, one server's, are read as that server still. */
  predicate ReadsAlike(lines: seq<string>, last: bool) {
    Servers(Reread(lines, last)) == Servers(lines)
  }

  /** In front of the servers none appears, and each server's lines are read as before. */
  predicate Steady(lines: seq<string>, last: bool)
    decreases |lines|
  {
    if lines == [] then true
    else if ServerName(lines[0]).None? then StaysOutside(lines[0], last && |lines| == 1) && Steady(lines[1..], last)
    else
      var n := 1 + InnerLength(lines[1..]);
      ReadsAlike(lines[..n], last && n == |lines|) && Steady(lines[n..], last)
  }

  lemma SameParts<T>(p: seq<T>, q: seq<T>, p0: seq<T>, q0: seq<T>)
    requires |p| >= |p0| && |q| >= |q0|
    ensures p + q == p0 + q0 <==> p == p0 && q == q0
  {
    if p + q == p0 + q0 {
      assert |p| == |p0|;
      assert p == (p + q)[..|p|] && q == (p + q)[|p|..];
      assert p0 == (p0 + q0)[..|p|] && q0 == (p0 + q0)[|p|..];
    }
  }

  /** Two pieces, the second of which opens with a server, are read as before exactly if each is. */
  lemma PiecesReadAlike(a: seq<string>, b: seq<string>, last: bool)
    requires StartsServer(b)
    ensures ReadsAlike(a + b, last) <==> ReadsAlike(a, last && b == []) && ReadsAlike(b, last)
  {
    hide ServerName, Servers, Reread;
    RereadAppend(a, b, last);
    RereadServesMore(a, last && b == []);
    RereadServesMore(b, last);
    if b == [] {
      RereadNothing(last);
    }
    ServersAppend(a, b);
    ServersAppend(Reread(a, last && b == []), Reread(b, last));
    SameParts(Servers(Reread(a, last && b == [])), Servers(Reread(b, last)), Servers(a), Servers(b));
  }

  lemma RereadNothing(last: bool)
    ensures Reread([], last) == []
  {
  }

  /** A section reads as before exactly if it is steady. */
  lemma {:induction false} SteadyExactly(lines: seq<string>, last: bool)
    ensures ReadsAlike(lines, last) <==> Steady(lines, last)
    decreases |lines|
  {
    hide ServerName, Servers, DropReturn, ReadsAlike;
    if lines == [] {
      RereadNothing(last);
      assert ReadsAlike(lines, last) by { NothingReadsAlike(last); }
    } else if ServerName(lines[0]).None? {
      OutsideExactly(lines[0], lines[1..], last);
      assert [lines[0]] + lines[1..] == lines;
      SteadyExactly(lines[1..], last);
    } else {
      var n := 1 + InnerLength(lines[1..]);
      assert lines[..n] + lines[n..] == lines;
      assert n < |lines| ==> lines[n..][0] == lines[1..][n - 1];
      PiecesReadAlike(lines[..n], lines[n..], last);
      SteadyExactly(lines[n..], last);
    }
  }

  lemma NothingReadsAlike(last: bool)
    ensures ReadsAlike([], last)
  {
    assert Reread([], last) == [];
  }

  lemma OutsideExactly(line: string, rest: seq<string>, last: bool)
    requires ServerName(line).None?
    ensures ReadsAlike([line] + rest, last) <==> StaysOutside(line, last && rest == []) && ReadsAlike(rest, last)
  {
    hide ServerName, Servers, DropReturn;
    var first := if last && rest == [] then line else DropReturn(line);
    RereadAppend([line], rest, last);
    assert Reread([line], last && rest == []) == [first];
    NoneFirst(line, rest);
    RereadServesMore(rest, last);
    CountFirst(first, Reread(rest, last));
    if ServerName(first).None? {
      NoneFirst(first, Reread(rest, last));
    }
  }

  /** Lines without trailing returns stay what they are. */
  lemma CleanReadsAlike(lines: seq<string>, last: bool)
    requires forall i :: 0 <= i < |lines| ==> DropReturn(lines[i]) == lines[i]
    ensures Reread(lines, last) == lines && ReadsAlike(lines, last)
  {
    hide DropReturn, Servers;
    assert Reread(lines, last) == lines;
  }

  // ---------------------------------------------------------------------
  // A section written server by server
  // ---------------------------------------------------------------------

  /** Block i is the end of the document. */
  predicate IsLast(blocks: seq<ServerBlock>, i: nat, last: bool) {
    last && i == |blocks| - 1
  }

  predicate BlocksSteady(blocks: seq<ServerBlock>, last: bool) {
    forall i :: 0 <= i < |blocks| ==> ReadsAlike(blocks[i].lines, IsLast(blocks, i, last))
  }

  lemma {:induction false} BlocksSteadyExactly(blocks: seq<ServerBlock>, last: bool)
    requires AllWellShaped(blocks)
    ensures ReadsAlike(Flat(blocks), last) <==> BlocksSteady(blocks, last)
  {
    hide ServerName, ReadsAlike, WellShaped;
    if blocks == [] {
      NothingReadsAlike(last);
    } else {
      var b, rest := blocks[0], blocks[1..];
      FlatStarts(rest);
      PiecesReadAlike(b.lines, Flat(rest), last);
      BlocksSteadyExactly(rest, last);
      assert Flat(rest) == [] <==> rest == [];
      assert BlocksSteady(blocks, last) <==> ReadsAlike(b.lines, IsLast(blocks, 0, last)) && BlocksSteady(rest, last) by {
        assert forall i :: 0 <= i < |rest| ==> rest[i] == blocks[i + 1] && IsLast(rest, i, last) == IsLast(blocks, i + 1, last);
        if BlocksSteady(rest, last) && ReadsAlike(b.lines, IsLast(blocks, 0, last)) {
          forall i | 0 <= i < |blocks|
            ensures ReadsAlike(blocks[i].lines, IsLast(blocks, i, last))
          {
            assert i > 0 ==> blocks[i] == rest[i - 1];
          }
        }
        if BlocksSteady(blocks, last) {
          forall i | 0 <= i < |rest|
            ensures ReadsAlike(rest[i].lines, IsLast(rest, i, last))
          {
            assert rest[i] == blocks[i + 1];
          }
        }
      }
    }
  }

  lemma FlatStarts(blocks: seq<ServerBlock>)
    requires AllWellShaped(blocks)
    ensures StartsServer(Flat(blocks)) && (Flat(blocks) == [] <==> blocks == [])
  {
    hide ServerName;
    if blocks != [] {
      assert WellShaped(blocks[0]);
      assert Flat(blocks)[0] == blocks[0].lines[0];
    }
  }

  /** The same with the empty line that keeps a section apart from what follows. */
  lemma GapReadsAlike(lines: seq<string>)
    ensures ReadsAlike(lines + [""], false) <==> ReadsAlike(lines, false)
  {
    hide Servers;
    RereadAppend(lines, [""], false);
    assert Reread([""], false) == [""];
    EmptyAtEnd(lines);
    EmptyAtEnd(Reread(lines, false));
  }

  // ---------------------------------------------------------------------
  // Whole documents
  // ---------------------------------------------------------------------

  lemma SectionIsFound(lines: seq<string>, pre: seq<string>, header: string, inner: seq<string>, post: seq<string>)
    requires NoHeader(pre) && IsMcpHeader(header) && NoEnd(inner) && (post != [] ==> EndsBlock(post[0]))
    requires lines == pre + [header] + inner + post
    ensures FindMcpBlock(lines) == Some(McpBlock(|pre|, |pre| + 1 + |inner|))
    ensures lines[|pre| + 1..|pre| + 1 + |inner|] == inner
  {
    hide IsMcpHeader, EndsBlock, BlockLength;
    var start := |pre|;
    assert lines[start] == header;
    assert forall i :: 0 <= i < start ==> lines[i] == pre[i];
    assert FindHeader(lines, 0) == start;
    assert lines[start + 1..] == inner + post;
    LengthOfBlock(inner, post);
  }

  /** What a reader gets from a rewritten section once its lines were joined. */
  lemma JoinedSection(lines: seq<string>, pre: seq<string>, header: string, inner: seq<string>, post: seq<string>)
    requires NoHeader(pre) && IsMcpHeader(header) && NoEnd(inner) && (post != [] ==> EndsBlock(post[0]))
    requires lines == pre + [header] + inner + post && NoFeeds(lines)
    ensures ParseMcpServersFromConfig(Join(lines)) == Servers(Reread(inner, post == []))
  {
    hide IsMcpHeader, EndsBlock, FindMcpBlock, Reread, Servers, ServersIn, SplitLines, NoFeeds;
    JoinedAreReread(lines);
    SectionIsFound(lines, pre, header, inner, post);
    RereadSection(lines, McpBlock(|pre|, |pre| + 1 + |inner|));
  }

  /** A section written from well-shaped blocks reads as those exactly if they are steady. */
  lemma WrittenBlocksExactly(
    lines: seq<string>, pre: seq<string>, header: string, blocks: seq<ServerBlock>, gap: seq<string>, post: seq<string>)
    requires NoHeader(pre) && IsMcpHeader(header) && NoEnd(Flat(blocks) + gap) && (post != [] ==> EndsBlock(post[0]))
    requires AllWellShaped(blocks) && (gap == [] || (gap == [""] && post != []))
    requires lines == pre + [header] + (Flat(blocks) + gap) + post && NoFeeds(lines)
    ensures forall b :: b in blocks ==> b.lines != []
    ensures ParseMcpServersFromConfig(Join(lines)) == Infos(blocks) <==> BlocksSteady(blocks, post == [])
  {
    hide IsMcpHeader, EndsBlock, Reread, Infos, ServerBlocks, WellShaped, BlocksSteady, ParseMcpServersFromConfig,
      NoFeeds;
    JoinedSection(lines, pre, header, Flat(blocks) + gap, post);
    HaveLines(blocks);
    BlankGap(gap);
    GroupsComeBack(blocks, gap, 1);
    BlocksSteadyExactly(blocks, post == []);
    if gap == [] {
      assert Flat(blocks) + gap == Flat(blocks);
    } else {
      GapReadsAlike(Flat(blocks));
    }
  }

  lemma BlankGap(gap: seq<string>)
    requires gap == [] || gap == [""]
    ensures AllBlank(gap)
  {
  }
}
