/** The MCP section read after it was edited: what changes and what does not. */
module McpLaws {
  import opened McpConfig
  import opened McpEdits
  import opened McpScalars
  import opened Text
  import opened TextLines
  import opened Wrappers

  // ---------------------------------------------------------------------
  // Rendered lines are read back
  // ---------------------------------------------------------------------

  predicate Visible(s: string) {
    s != "" && !IsSpace(s[0])
  }

  lemma SpaceRun(s: string, from: nat, at: nat)
    requires from <= at <= |s| && forall i :: from <= i < at ==> IsSpace(s[i])
    requires at < |s| ==> !IsSpace(s[at])
    ensures SpaceEnd(s, from) == at
  {
  }

  lemma KeyRun(s: string, from: nat, at: nat)
    requires from <= at <= |s| && forall i :: from <= i < at ==> KeyChar(s[i])
    requires at < |s| ==> !KeyChar(s[at])
    ensures KeyEnd(s, from) == at
  {
  }

  lemma EnvKeyRun(s: string, from: nat, at: nat)
    requires from <= at <= |s| && forall i :: from <= i < at ==> EnvChar(s[i])
    requires at < |s| ==> !EnvChar(s[at])
    ensures EnvKeyEnd(s, from) == at
  {
  }

  /** A colon right behind a key, and the text behind the colon. */
  lemma ColonAt(s: string, at: nat, after: nat)
    requires at < after <= |s| && s[at] == ':'
    requires forall i :: at < i < after ==> IsSpace(s[i])
    requires after < |s| ==> !IsSpace(s[after])
    ensures AfterColon(s, at) == Some(after)
  {
    hide SpaceEnd, IsSpace;
    ColonIsVisible();
    SpaceRun(s, at, at);
    SpaceRun(s, at + 1, after);
  }

  lemma Entry(indent: string, key: string, q: string)
    ensures
      var s := indent + key + ": " + q;
      && indent <= s
      && (forall i :: |indent| <= i < |indent| + |key| ==> s[i] == key[i - |indent|])
      && s[|indent| + |key|] == ':' && s[|indent| + |key| + 1] == ' '
      && s[|indent|..|indent| + |key|] == key
      && s[|indent| + |key| + 2..] == q
      && (q != "" ==> s[|indent| + |key| + 2] == q[0])
  {
  }

  lemma FieldLineIs(key: string, q: string)
    requires key != "" && KeyStart(key[0]) && forall i :: 0 <= i < |key| ==> KeyChar(key[i])
    requires Visible(q) && OneLine(q)
    ensures FieldLine("    " + key + ": " + q) == Some((key, q))
  {
    hide KeyStart, IsSpace;
    var s := "    " + key + ": " + q;
    Entry("    ", key, q);
    KeyStops(':');
    KeyRun(s, 4, 4 + |key|);
    SpaceIs(' ');
    ColonAt(s, 4 + |key|, 4 + |key| + 2);
    assert s[4] == key[0];
  }

  lemma KeyStops(c: char)
    requires c == ':'
    ensures !KeyChar(c) && !EnvChar(c)
  {
  }

  lemma SpaceIs(c: char)
    requires c == ' '
    ensures IsSpace(c)
  {
  }

  lemma EnvLineIs(key: string, q: string)
    requires ValidEnvName(key) && Visible(q) && OneLine(q)
    ensures EnvLine("      " + key + ": " + q) == Some((key, q))
  {
    hide KeyStart, IsSpace;
    var s := "      " + key + ": " + q;
    Entry("      ", key, q);
    KeyStops(':');
    EnvKeyRun(s, 6, 6 + |key|);
    SpaceIs(' ');
    ColonAt(s, 6 + |key|, 6 + |key| + 2);
    assert s[6] == key[0];
  }

  lemma ItemLineIs(q: string)
    requires Visible(q) && OneLine(q)
    ensures ItemLine("      - " + q) == Some(q)
  {
    hide IsSpace;
    var s := "      - " + q;
    assert "      -" <= s;
    SpaceIs(' ');
    assert s[7] == ' ' && s[8] == q[0];
    SpaceRun(s, 7, 8);
    assert s[8..] == q;
  }

  lemma BareFieldIs(key: string)
    requires key == "args" || key == "env"
    ensures FieldLine("    " + key + ":") == Some((key, ""))
    ensures ItemLine("    env:") == None && ItemLine("    args:") == None
    ensures "    " + "args" + ":" == "    args:" && "    " + "env" + ":" == "    env:"
  {
    hide ItemLine, EnvLine;
    BareLines();
    BareKeyIs(key);
  }

  lemma BareLines()
    ensures ItemLine("    env:") == None && ItemLine("    args:") == None
    ensures "    " + "args" + ":" == "    args:" && "    " + "env" + ":" == "    env:"
  {
    assert "    env:"[4] != ' ' && "    args:"[4] != ' ' && "      -"[4] == ' ';
  }

  lemma BareKeyIs(key: string)
    requires key == "args" || key == "env"
    ensures FieldLine("    " + key + ":") == Some((key, ""))
  {
    hide SpaceEnd, KeyEnd, IsSpace;
    var s := "    " + key + ":";
    assert forall i :: 0 <= i < |key| ==> KeyChar(key[i]) && s[4 + i] == key[i];
    assert s[4 + |key|] == ':' && s[4] == key[0];
    KeyStops(':');
    KeyRun(s, 4, 4 + |key|);
    ColonAt(s, 4 + |key|, |s|);
    assert s[|s|..] == "" && s[4..4 + |key|] == key;
  }

  lemma NameLineIs(name: string)
    requires ValidName(name)
    ensures ServerName(NameLine(name)) == Some(name)
  {
    var s := NameLine(name);
    assert "  " <= s;
    assert forall i :: 2 <= i < 2 + |name| ==> s[i] == name[i - 2];
    KeyRun(s, 2, 2 + |name|);
    ColonAt(s, 2 + |name|, |s|);
    assert s[2..2 + |name|] == name;
    assert s[2] == name[0];
  }

  lemma QuotedIsVisible(value: string)
    ensures Visible(QuoteYamlScalar(value))
  {
  }

  // ---------------------------------------------------------------------
  // A rendered server is read back exactly
  // ---------------------------------------------------------------------

  /** Strings without line terminators, and names as validation leaves them. */
  predicate Proper(input: ServerInput) {
    && ValidName(input.name)
    && match input
       case HttpServer(_, url, auth) => OneLine(url) && OneLine(auth)
       case StdioServer(_, command, args, env) =>
         && OneLine(command)
         && (forall i :: 0 <= i < |args| ==> OneLine(args[i]))
         && (forall i :: 0 <= i < |env| ==> ValidEnvName(env[i].0) && OneLine(env[i].1))
  }

  function EnvMap(env: seq<(string, string)>, m: map<string, string>): map<string, string>
    decreases |env|
  {
    if env == [] then m else EnvMap(env[1..], m[env[0].0 := env[0].1])
  }

  /** The fields a reader is meant to find. */
  function FieldsOf(input: ServerInput): Fields {
    match input
    case HttpServer(_, url, auth) => NO_FIELDS.(url := Some(url), auth := if auth != "" then Some(auth) else None)
    case StdioServer(_, command, args, env) =>
      NO_FIELDS.(command := Some(command), args := args, env := EnvMap(env, map[]))
  }

  lemma {:induction false} ItemsAreRead(args: seq<string>, rest: seq<string>)
    requires forall i :: 0 <= i < |args| ==> OneLine(args[i])
    requires rest != [] ==> ItemLine(rest[0]).None?
    ensures Items(RenderedItems(args) + rest) == args
    ensures |RenderedItems(args)| == |args|
  {
    hide QuoteYamlScalar, ItemLine, ParsedScalar;
    if args == [] {
      assert RenderedItems(args) + rest == rest;
    } else {
      var q := QuoteYamlScalar(args[0]);
      QuotedIsVisible(args[0]);
      QuotedIsOneLine(args[0]);
      ItemLineIs(q);
      ScalarRoundTrip(args[0]);
      ItemsAreRead(args[1..], rest);
      assert RenderedItems(args) + rest == ["      - " + q] + (RenderedItems(args[1..]) + rest);
    }
  }

  lemma {:induction false} EnvIsRead(env: seq<(string, string)>, m: map<string, string>)
    requires forall i :: 0 <= i < |env| ==> ValidEnvName(env[i].0) && OneLine(env[i].1)
    ensures EnvOf(RenderedEnv(env), m) == EnvMap(env, m)
    ensures EnvLines(RenderedEnv(env)) == |env| == |RenderedEnv(env)|
    decreases |env|
  {
    hide QuoteYamlScalar, EnvLine, ParsedScalar, ValidEnvName;
    if env != [] {
      var q := QuoteYamlScalar(env[0].1);
      QuotedIsVisible(env[0].1);
      QuotedIsOneLine(env[0].1);
      EnvLineIs(env[0].0, q);
      ScalarRoundTrip(env[0].1);
      EnvIsRead(env[1..], m[env[0].0 := env[0].1]);
      assert RenderedEnv(env)[1..] == RenderedEnv(env[1..]);
    }
  }

  lemma ReadOn(line: string, rest: seq<string>, key: string, raw: string, fields: Fields)
    requires FieldLine(line) == Some((key, raw))
    ensures
      var r := ReadField(key, raw, rest, fields);
      ReadFields([line] + rest, fields) == ReadFields(rest[r.1..], r.0)
  {
    hide FieldLine, ReadField;
    var r := ReadField(key, raw, rest, fields);
    assert ([line] + rest)[1..] == rest;
    assert ([line] + rest)[1 + r.1..] == rest[r.1..];
  }

  lemma EnvPartIsRead(env: seq<(string, string)>, fields: Fields)
    requires forall i :: 0 <= i < |env| ==> ValidEnvName(env[i].0) && OneLine(env[i].1)
    requires fields.env == map[]
    ensures ReadFields(if env != [] then ["    env:"] + RenderedEnv(env) else [], fields)
      == fields.(env := EnvMap(env, map[]))
  {
    hide FieldLine, RenderedEnv, EnvOf, EnvLines, ValidEnvName;
    if env != [] {
      BareFieldIs("env");
      ReadOn("    env:", RenderedEnv(env), "env", "", fields);
      EnvIsRead(env, map[]);
    }
  }

  lemma ArgsField(under: seq<string>, fields: Fields)
    ensures ReadField("args", "", under, fields) == (fields.(args := Items(under)), |Items(under)|)
  {
    hide Items;
    assert "args"[0] == 'a' && "url"[0] == 'u' && "command"[0] == 'c' && "auth"[1] == 'u' && "enabled"[0] == 'e';
  }

  lemma ArgsPartIsRead(args: seq<string>, rest: seq<string>, fields: Fields)
    requires forall i :: 0 <= i < |args| ==> OneLine(args[i])
    requires rest != [] ==> rest[0] == "    env:"
    requires fields.args == []
    ensures ReadFields((if args != [] then ["    args:"] + RenderedItems(args) else []) + rest, fields)
      == ReadFields(rest, fields.(args := args))
  {
    hide *;
    if args != [] {
      BareFieldIs("args");
      var items := RenderedItems(args);
      var under := items + rest;
      Together("    args:", items, rest);
      ReadOn("    args:", under, "args", "", fields);
      ArgsField(under, fields);
      ItemsAreRead(args, rest);
    } else {
      assert [] + rest == rest;
      assert fields.(args := args) == fields;
    }
  }

  lemma Together(line: string, items: seq<string>, rest: seq<string>)
    ensures [line] + items + rest == [line] + (items + rest)
    ensures (items + rest)[|items|..] == rest
  {
  }

  lemma ScalarFieldIsRead(key: string, value: string, rest: seq<string>, fields: Fields)
    requires key == "url" || key == "command" || key == "auth"
    requires OneLine(value)
    ensures
      var next := match key
        case "url" => fields.(url := Some(value))
        case "command" => fields.(command := Some(value))
        case _ => fields.(auth := Some(value));
      ReadFields(["    " + key + ": " + QuoteYamlScalar(value)] + rest, fields) == ReadFields(rest, next)
  {
    hide FieldLine, ReadFields, QuoteYamlScalar, ParsedScalar;
    var q := QuoteYamlScalar(value);
    QuotedIsVisible(value);
    QuotedIsOneLine(value);
    FieldLineIs(key, q);
    ScalarRoundTrip(value);
    ReadOn("    " + key + ": " + q, rest, key, q, fields);
    assert rest[0..] == rest;
  }

  /** Reading a server's rendered lines gives exactly its fields. */
  lemma RenderedIsRead(input: ServerInput)
    requires Proper(input)
    ensures ReadFields(RenderedFields(input), NO_FIELDS) == FieldsOf(input)
  {
    match input
    case HttpServer(_, url, auth) => HttpIsRead(url, auth);
    case StdioServer(_, command, args, env) => StdioIsRead(command, args, env);
  }

  lemma HttpIsRead(url: string, auth: string)
    requires OneLine(url) && OneLine(auth)
    ensures
      ReadFields(
        ["    url: " + QuoteYamlScalar(url)] + (if auth != "" then ["    auth: " + QuoteYamlScalar(auth)] else []), NO_FIELDS)
      == NO_FIELDS.(url := Some(url), auth := if auth != "" then Some(auth) else None)
  {
    hide FieldLine, ReadField, QuoteYamlScalar, OneLine;
    FieldPrefixes();
    var rest := if auth != "" then ["    auth: " + QuoteYamlScalar(auth)] else [];
    ScalarFieldIsRead("url", url, rest, NO_FIELDS);
    if auth != "" {
      ScalarFieldIsRead("auth", auth, [], NO_FIELDS.(url := Some(url)));
      assert rest == ["    auth: " + QuoteYamlScalar(auth)] + [];
    }
  }

  lemma FieldPrefixes()
    ensures "    " + "url" + ": " == "    url: "
    ensures "    " + "auth" + ": " == "    auth: "
    ensures "    " + "command" + ": " == "    command: "
  {
  }

  lemma StdioIsRead(command: string, args: seq<string>, env: seq<(string, string)>)
    requires OneLine(command)
    requires forall i :: 0 <= i < |args| ==> OneLine(args[i])
    requires forall i :: 0 <= i < |env| ==> ValidEnvName(env[i].0) && OneLine(env[i].1)
    ensures
      ReadFields(
        ["    command: " + QuoteYamlScalar(command)]
          + (if args != [] then ["    args:"] + RenderedItems(args) else [])
          + (if env != [] then ["    env:"] + RenderedEnv(env) else []), NO_FIELDS)
      == NO_FIELDS.(command := Some(command), args := args, env := EnvMap(env, map[]))
  {
    hide FieldLine, ReadField, ReadFields, QuoteYamlScalar, OneLine, RenderedItems, RenderedEnv, ValidEnvName, EnvMap;
    var line := "    command: " + QuoteYamlScalar(command);
    var argLines := if args != [] then ["    args:"] + RenderedItems(args) else [];
    var envLines := if env != [] then ["    env:"] + RenderedEnv(env) else [];
    var fields := NO_FIELDS.(command := Some(command));
    FieldPrefixes();
    Together(line, argLines, envLines);
    ScalarFieldIsRead("command", command, argLines + envLines, NO_FIELDS);
    ArgsPartIsRead(args, envLines, fields);
    EnvPartIsRead(env, fields.(args := args));
  }

  // ---------------------------------------------------------------------
  // Servers as line groups
  // ---------------------------------------------------------------------

  /** The lines of a server that a reader groups together again. */
  ghost predicate WellShaped(b: ServerBlock) {
    && b.lines != []
    && ServerName(b.lines[0]) == Some(b.name)
    && (forall i :: 1 <= i < |b.lines| ==> ServerName(b.lines[i]).None?)
    && (|b.lines| > 1 ==> !Blank(b.lines[|b.lines| - 1]))
  }

  ghost predicate AllWellShaped(blocks: seq<ServerBlock>) {
    forall i :: 0 <= i < |blocks| ==> WellShaped(blocks[i])
  }

  predicate AllBlank(lines: seq<string>) {
    forall i :: 0 <= i < |lines| ==> Blank(lines[i])
  }

  lemma BlankIsNoServer(line: string)
    requires Blank(line)
    ensures ServerName(line).None? && !EndsBlock(line) && !IsMcpHeader(line)
  {
  }

  lemma {:induction false} GroupsAreWellShaped(lines: seq<string>, offset: nat)
    ensures AllWellShaped(ServerBlocks(lines, offset))
    decreases |lines|
  {
    hide ServerName, Blank;
    if lines != [] {
      match ServerName(lines[0]) {
        case None => GroupsAreWellShaped(lines[1..], offset + 1);
        case Some(name) =>
          var n := InnerLength(lines[1..]);
          GroupsAreWellShaped(lines[1 + n..], offset + 1 + n);
          var inner := lines[1..1 + n];
          assert forall i :: 0 <= i < n ==> inner[i] == lines[1..][i];
      }
    }
  }

  lemma {:induction false} DropsBlankTail(lines: seq<string>, blanks: seq<string>)
    requires AllBlank(blanks) && (lines != [] ==> !Blank(lines[|lines| - 1]))
    ensures DropBlankEnd(lines + blanks) == lines
  {
    hide Blank;
    if blanks == [] {
      assert lines + blanks == lines;
    } else {
      var last := |blanks| - 1;
      assert (lines + blanks)[|lines| + last] == blanks[last];
      assert (lines + blanks)[..|lines| + last] == lines + blanks[..last];
      DropsBlankTail(lines, blanks[..last]);
    }
  }

  lemma {:induction false} InnerRun(inner: seq<string>, rest: seq<string>)
    requires forall i :: 0 <= i < |inner| ==> ServerName(inner[i]).None?
    ensures InnerLength(inner + rest) == |inner| + InnerLength(rest)
  {
    hide ServerName;
    if inner == [] {
      assert inner + rest == rest;
    } else {
      assert (inner + rest)[1..] == inner[1..] + rest;
      InnerRun(inner[1..], rest);
    }
  }

  /** A line that opens no server, in front of a section's lines, belongs to none. */
  lemma NoGroup(line: string, rest: seq<string>, offset: nat)
    requires ServerName(line).None?
    ensures ServerBlocks([line] + rest, offset) == ServerBlocks(rest, offset + 1)
  {
    hide ServerName;
    assert ([line] + rest)[1..] == rest;
  }

  lemma InfosCons(b: ServerBlock, rest: seq<ServerBlock>)
    requires b.lines != [] && forall c :: c in rest ==> c.lines != []
    ensures forall c :: c in [b] + rest ==> c.lines != []
    ensures Infos([b] + rest) == [BlockInfo(b)] + Infos(rest)
  {
    hide BlockInfo;
    assert ([b] + rest)[1..] == rest;
  }

  /** Reading does not depend on where the lines stand. */
  lemma {:induction false} OffsetIsIrrelevant(lines: seq<string>, a: nat, b: nat)
    ensures Infos(ServerBlocks(lines, a)) == Infos(ServerBlocks(lines, b))
    decreases |lines|
  {
    hide ServerName, DropBlankEnd, BlockInfo, ServerBlocks, Infos, InnerLength, Blank;
    if lines == [] {
      NoServers(a);
      NoServers(b);
    } else {
      match ServerName(lines[0]) {
        case None =>
          assert lines == [lines[0]] + lines[1..];
          NoGroup(lines[0], lines[1..], a);
          NoGroup(lines[0], lines[1..], b);
          OffsetIsIrrelevant(lines[1..], a + 1, b + 1);
        case Some(name) =>
          var n := InnerLength(lines[1..]);
          OpensGroup(lines, name, n, a);
          OpensGroup(lines, name, n, b);
          OffsetIsIrrelevant(lines[1 + n..], a + 1 + n, b + 1 + n);
          var mine := [lines[0]] + DropBlankEnd(lines[1..1 + n]);
          SameInfo(ServerBlock(name, mine, a), ServerBlock(name, mine, b));
          InfosCons(ServerBlock(name, mine, a), ServerBlocks(lines[1 + n..], a + 1 + n));
          InfosCons(ServerBlock(name, mine, b), ServerBlocks(lines[1 + n..], b + 1 + n));
      }
    }
  }

  lemma NoServers(offset: nat)
    ensures ServerBlocks([], offset) == []
  {
  }

  lemma SameInfo(a: ServerBlock, b: ServerBlock)
    requires a.lines != [] && a.name == b.name && a.lines == b.lines
    ensures BlockInfo(a) == BlockInfo(b)
  {
  }

  /** A well-shaped server in front is grouped as it is, blank lines behind it left out. */
  lemma FirstGroup(b: ServerBlock, later: seq<string>, k: nat, offset: nat)
    requires WellShaped(b) && k <= |later| && InnerLength(later) == k && AllBlank(later[..k])
    ensures ServerBlocks(b.lines + later, offset)
      == [ServerBlock(b.name, b.lines, offset)] + ServerBlocks(later[k..], offset + |b.lines| + k)
  {
    hide ServerName, DropBlankEnd, Blank, ServerBlocks, InnerLength;
    var inner := b.lines[1..];
    var lines := b.lines + later;
    assert lines[1..] == inner + later;
    InnerRun(inner, later);
    FirstGroupLines(b.lines, later, k);
    OpensGroup(lines, b.name, |inner| + k, offset);
    DropsBlankTail(inner, later[..k]);
  }

  lemma OpensGroup(lines: seq<string>, name: string, n: nat, offset: nat)
    requires lines != [] && ServerName(lines[0]) == Some(name) && n == InnerLength(lines[1..])
    ensures ServerBlocks(lines, offset)
      == [ServerBlock(name, [lines[0]] + DropBlankEnd(lines[1..1 + n]), offset)] + ServerBlocks(lines[1 + n..], offset + 1 + n)
  {
    hide ServerName, DropBlankEnd, InnerLength, KeyEnd, Blank, NameStart, AfterColon;
    HeaderLine(name, lines, offset);
    GroupFrom(name, lines, n, offset);
  }

  /** The servers from a header line on, its own lines taken together. */
  lemma GroupFrom(name: string, lines: seq<string>, n: nat, offset: nat)
    requires lines != [] && n == InnerLength(lines[1..])
    ensures BlocksFrom(Some(ServerBlock(name, [lines[0]], offset)), lines[1..], offset + 1)
      == [ServerBlock(name, [lines[0]] + DropBlankEnd(lines[1..1 + n]), offset)] + ServerBlocks(lines[1 + n..], offset + 1 + n)
  {
    hide ServerName, DropBlankEnd, InnerLength, Blank, ServerBlocks;
    var rest := lines[1..];
    assert rest[..n] == lines[1..1 + n] && rest[n..] == lines[1 + n..];
    assert ([lines[0]] + rest[..n])[1..] == rest[..n];
  }

  lemma FirstGroupLines(mine: seq<string>, later: seq<string>, k: nat)
    requires mine != [] && k <= |later|
    ensures
      var lines := mine + later;
      var inner := mine[1..];
      && lines[0] == mine[0] && [mine[0]] + inner == mine
      && lines[1..1 + |inner| + k] == inner + later[..k]
      && lines[1 + |inner| + k..] == later[k..]
  {
  }

  lemma {:induction false} NextGroupStarts(blocks: seq<ServerBlock>, blanks: seq<string>)
    requires AllWellShaped(blocks) && AllBlank(blanks)
    ensures InnerLength(Flat(blocks) + blanks) == if blocks == [] then |blanks| else 0
    ensures blocks == [] ==> Flat(blocks) + blanks == blanks
  {
    hide ServerName, Blank;
    if blocks == [] {
      assert Flat(blocks) + blanks == blanks;
      BlanksAreInner(blanks);
    } else {
      assert WellShaped(blocks[0]);
      assert (Flat(blocks) + blanks)[0] == blocks[0].lines[0];
    }
  }

  /** Servers written one after another are read as those servers. */
  lemma {:induction false} GroupsComeBack(blocks: seq<ServerBlock>, blanks: seq<string>, offset: nat)
    requires AllWellShaped(blocks) && AllBlank(blanks)
    ensures Infos(ServerBlocks(Flat(blocks) + blanks, offset)) == Infos(blocks)
    decreases |blocks|
  {
    hide ServerName, DropBlankEnd, BlockInfo, Blank, ServerBlocks, InnerLength, WellShaped, Infos;
    if blocks == [] {
      NextGroupStarts(blocks, blanks);
      BlanksHoldNothing(blanks, offset);
    } else {
      var b := blocks[0];
      var rest := blocks[1..];
      var later := Flat(rest) + blanks;
      assert WellShaped(b);
      WellShapedHasLines(b);
      NextGroupStarts(rest, blanks);
      var k := if rest == [] then |blanks| else 0;
      assert AllBlank(later[..k]);
      assert Flat(blocks) + blanks == b.lines + later;
      FirstGroup(b, later, k, offset);
      SameInfo(ServerBlock(b.name, b.lines, offset), b);
      if rest == [] {
        assert later[k..] == [];
        BlanksHoldNothing([], offset + |b.lines| + k);
      } else {
        assert later[k..] == later;
        GroupsComeBack(rest, blanks, offset + |b.lines| + k);
      }
      assert blocks == [b] + rest;
      HaveLines(rest);
      InfosCons(b, rest);
      InfosCons(ServerBlock(b.name, b.lines, offset), ServerBlocks(later[k..], offset + |b.lines| + k));
    }
  }

  lemma HaveLines(blocks: seq<ServerBlock>)
    requires AllWellShaped(blocks)
    ensures forall b :: b in blocks ==> b.lines != []
  {
    hide ServerName, Blank;
    forall b | b in blocks
      ensures b.lines != []
    {
      WellShapedHasLines(b);
    }
  }

  lemma WellShapedHasLines(b: ServerBlock)
    requires WellShaped(b)
    ensures b.lines != []
  {
  }

  lemma {:induction false} BlanksHoldNothing(blanks: seq<string>, offset: nat)
    requires AllBlank(blanks)
    ensures ServerBlocks(blanks, offset) == []
    decreases |blanks|
  {
    hide ServerName, Blank;
    if blanks != [] {
      BlankIsNoServer(blanks[0]);
      BlanksHoldNothing(blanks[1..], offset + 1);
    }
  }

  lemma {:induction false} BlanksAreInner(blanks: seq<string>)
    requires AllBlank(blanks)
    ensures InnerLength(blanks) == |blanks|
  {
    hide ServerName, Blank;
    if blanks != [] {
      BlankIsNoServer(blanks[0]);
      BlanksAreInner(blanks[1..]);
    }
  }

  // ---------------------------------------------------------------------
  // Finding the section again
  // ---------------------------------------------------------------------

  ghost predicate NoHeader(lines: seq<string>) {
    forall i :: 0 <= i < |lines| ==> !IsMcpHeader(lines[i])
  }

  ghost predicate NoEnd(lines: seq<string>) {
    forall i :: 0 <= i < |lines| ==> !EndsBlock(lines[i])
  }

  lemma {:induction false} LengthOfBlock(inner: seq<string>, post: seq<string>)
    requires NoEnd(inner) && (post != [] ==> EndsBlock(post[0]))
    ensures BlockLength(inner + post) == |inner|
  {
    hide EndsBlock;
    if inner == [] {
      assert inner + post == post;
    } else {
      assert (inner + post)[1..] == inner[1..] + post;
      LengthOfBlock(inner[1..], post);
    }
  }

  /** A document whose first header is known reads as the servers between it and the end of its block. */
  lemma SectionIsRead(pre: seq<string>, header: string, inner: seq<string>, post: seq<string>)
    requires NoHeader(pre) && IsMcpHeader(header) && NoEnd(inner) && (post != [] ==> EndsBlock(post[0]))
    ensures ServersIn(pre + [header] + inner + post) == Infos(ServerBlocks(inner, 1))
  {
    hide IsMcpHeader, EndsBlock, ServerBlocks, BlockLength, Infos;
    var lines := pre + [header] + inner + post;
    var start := |pre|;
    assert lines[start] == header;
    assert forall i :: 0 <= i < start ==> lines[i] == pre[i];
    assert FindHeader(lines, 0) == start;
    assert lines[start + 1..] == inner + post;
    LengthOfBlock(inner, post);
    assert lines[start + 1..start + 1 + |inner|] == inner;
  }

  lemma SectionHeads()
    ensures IsMcpHeader(SECTION)
  {
    var s := SECTION;
    assert TrimEnd(s) == s;
    assert HEADER <= s;
    assert s[|HEADER|] == ':';
    ColonAt(s, |HEADER|, |s|);
  }

  /** The parts of a document around its section. */
  lemma SectionParts(lines: seq<string>, block: McpBlock)
    requires FindMcpBlock(lines) == Some(block)
    ensures
      var pre, inner, post := lines[..block.startLine], lines[block.startLine + 1..block.endLine], lines[block.endLine..];
      && NoHeader(pre) && NoEnd(inner) && (post != [] ==> EndsBlock(post[0]))
      && IsMcpHeader(lines[block.startLine])
      && ServersIn(lines) == Infos(BlocksOf(lines, block))
  {
    hide IsMcpHeader, EndsBlock, ServerBlocks, Infos;
    var inner := lines[block.startLine + 1..block.endLine];
    assert forall i :: 0 <= i < |inner| ==> inner[i] == lines[block.startLine + 1..][i];
    if block.endLine < |lines| {
      assert lines[block.endLine..][0] == lines[block.startLine + 1..][block.endLine - block.startLine - 1];
    }
  }

  // ---------------------------------------------------------------------
  // The lines of servers inside a section
  // ---------------------------------------------------------------------

  ghost predicate Harmless(b: ServerBlock) {
    NoEnd(b.lines)
  }

  lemma {:induction false} GroupsAreHarmless(lines: seq<string>, offset: nat)
    requires NoEnd(lines)
    ensures forall i :: 0 <= i < |ServerBlocks(lines, offset)| ==> Harmless(ServerBlocks(lines, offset)[i])
    decreases |lines|
  {
    hide ServerName, EndsBlock, Blank;
    if lines != [] {
      match ServerName(lines[0]) {
        case None => GroupsAreHarmless(lines[1..], offset + 1);
        case Some(name) =>
          var n := InnerLength(lines[1..]);
          GroupsAreHarmless(lines[1 + n..], offset + 1 + n);
          var inner := lines[1..1 + n];
          assert forall i :: 0 <= i < |DropBlankEnd(inner)| ==> DropBlankEnd(inner)[i] == inner[i];
      }
    }
  }

  lemma {:induction false} FlatIsHarmless(blocks: seq<ServerBlock>)
    requires forall i :: 0 <= i < |blocks| ==> Harmless(blocks[i])
    ensures NoEnd(Flat(blocks))
  {
    hide EndsBlock;
    if blocks != [] {
      assert Harmless(blocks[0]);
      FlatIsHarmless(blocks[1..]);
    }
  }

  /** The server block an input is written as. */
  function BlockFor(input: ServerInput): ServerBlock {
    ServerBlock(input.name, Rendered(input), 0)
  }

  lemma IndentedLine(line: string)
    requires |line| > 4 && line[0] == ' ' && line[2] == ' ' && (exists j :: 0 <= j < |line| && !IsSpace(line[j]))
    ensures ServerName(line).None? && !EndsBlock(line) && !Blank(line)
  {
  }

  lemma FieldLinesAreIndented(input: ServerInput)
    ensures forall i :: 0 <= i < |RenderedFields(input)| ==>
      var line := RenderedFields(input)[i];
      ServerName(line).None? && !EndsBlock(line) && !Blank(line)
    ensures RenderedFields(input) != []
  {
    hide ServerName, EndsBlock, Blank, QuoteYamlScalar;
    match input
    case HttpServer(_, url, auth) =>
      LiteralLine("    url: ", QuoteYamlScalar(url), 4);
      LiteralLine("    auth: ", QuoteYamlScalar(auth), 4);
    case StdioServer(_, command, args, env) =>
      LiteralLine("    command: ", QuoteYamlScalar(command), 4);
      LiteralLine("    args:", "", 4);
      LiteralLine("    env:", "", 4);
      assert "    args:" + "" == "    args:" && "    env:" + "" == "    env:";
      ItemLinesAreIndented(args);
      EnvLinesAreIndented(env);
  }

  lemma LiteralLine(prefix: string, rest: string, at: nat)
    requires 4 <= at < |prefix| && prefix[0] == ' ' && prefix[2] == ' ' && !IsSpace(prefix[at])
    ensures ServerName(prefix + rest).None? && !EndsBlock(prefix + rest) && !Blank(prefix + rest)
  {
    hide ServerName, EndsBlock, Blank, IsSpace;
    assert (prefix + rest)[at] == prefix[at];
    IndentedLine(prefix + rest);
  }

  lemma {:induction false} ItemLinesAreIndented(args: seq<string>)
    ensures forall i :: 0 <= i < |RenderedItems(args)| ==>
      var line := RenderedItems(args)[i];
      ServerName(line).None? && !EndsBlock(line) && !Blank(line)
  {
    hide ServerName, EndsBlock, Blank, QuoteYamlScalar;
    if args != [] {
      LiteralLine("      - ", QuoteYamlScalar(args[0]), 6);
      ItemLinesAreIndented(args[1..]);
    }
  }

  lemma {:induction false} EnvLinesAreIndented(env: seq<(string, string)>)
    ensures forall i :: 0 <= i < |RenderedEnv(env)| ==>
      var line := RenderedEnv(env)[i];
      ServerName(line).None? && !EndsBlock(line) && !Blank(line)
  {
    hide ServerName, EndsBlock, Blank, QuoteYamlScalar;
    if env != [] {
      EnvEntryIsIndented(env[0].0, QuoteYamlScalar(env[0].1));
      EnvLinesAreIndented(env[1..]);
    }
  }

  lemma EnvEntryIsIndented(key: string, q: string)
    ensures
      var line := "      " + key + ": " + q;
      ServerName(line).None? && !EndsBlock(line) && !Blank(line)
  {
    hide ServerName, EndsBlock, Blank, IsSpace;
    var line := "      " + key + ": " + q;
    Entry("      ", key, q);
    assert line[6 + |key|] == ':';
    ColonIsVisible();
    assert line[0] == ' ' && line[2] == ' ';
    IndentedLine(line);
  }

  lemma ColonIsVisible()
    ensures !IsSpace(':')
  {
  }

  lemma RenderedIsWellShaped(input: ServerInput)
    requires ValidName(input.name)
    ensures WellShaped(BlockFor(input)) && Harmless(BlockFor(input))
  {
    hide ServerName, EndsBlock, Blank, RenderedFields, ValidName, NameLine;
    NameLineIs(input.name);
    FieldLinesAreIndented(input);
    NameLineIsHarmless(input.name);
    var lines := Rendered(input);
    assert forall i :: 1 <= i < |lines| ==> lines[i] == RenderedFields(input)[i - 1];
  }

  lemma NameLineIsHarmless(name: string)
    ensures !EndsBlock(NameLine(name))
  {
    assert NameLine(name)[0] == ' ';
  }
}
