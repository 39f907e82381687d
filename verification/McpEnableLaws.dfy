/** Reading a config document after one server was switched on or off. */
module McpEnableLaws {
  import opened McpConfig
  import opened McpEdits
  import opened McpEnable
  import opened McpLaws
  import opened McpRejoin
  import opened McpScalars
  import opened McpUpsertLaws
  import opened Text
  import opened TextLines
  import opened Wrappers

  // ---------------------------------------------------------------------
  // Fields around an enabled line
  // ---------------------------------------------------------------------

  /** Equal but for the enabled field. */
  predicate SameButEnabled(a: Fields, b: Fields) {
    a.(enabled := None) == b.(enabled := None)
  }

  /** A line that can only touch the enabled field. */
  predicate FlagLike(line: string) {
    && (FieldLine(line).Some? ==> FieldLine(line).value.0 == "enabled")
    && ItemLine(line).None? && EnvLine(line).None?
  }

  /** What the enabled lines among some lines say last. */
  function LastFlag(lines: seq<string>, flag: Option<bool>): Option<bool>
    decreases |lines|
  {
    if lines == [] then flag
    else
      var field := FieldLine(lines[0]);
      LastFlag(
        lines[1..],
        if field.Some? && field.value.0 == "enabled" then Some(Lower(Trim(field.value.1)) != "false") else flag)
  }

  lemma EnabledIsFlagLike(line: string)
    requires IsEnabledLine(line)
    ensures FlagLike(line)
  {
    assert ENABLED[4..] == "enabled";
    assert line[4] == 'e';
    assert forall i :: 4 <= i < 11 ==> line[i] == ENABLED[i];
    assert "      -"[4] == ' ' && "      "[4] == ' ';
    var after := SpaceEnd(line, 11);
    assert line[after] == ':';
    if after == 11 {
      KeyStops(':');
      KeyRun(line, 4, 11);
    } else {
      SpaceStopsKey(line[11]);
      KeyRun(line, 4, 11);
    }
    assert line[4..11] == "enabled";
  }

  lemma SpaceStopsKey(c: char)
    requires IsSpace(c)
    ensures !KeyChar(c)
  {
  }

  lemma FlagLineShape(enabled: bool)
    ensures IsEnabledLine(FlagLine(enabled)) && FlagLike(FlagLine(enabled))
    ensures FieldLine(FlagLine(enabled)) == Some(("enabled", if enabled then "true" else "false"))
    ensures ServerName(FlagLine(enabled)).None? && !EndsBlock(FlagLine(enabled)) && !Blank(FlagLine(enabled))
  {
    hide FieldLine, FlagLike, ServerName, EndsBlock, Blank, Visible, OneLine, IsEnabledLine, AfterColon, Lower, Trim,
      CleanLine;
    var word := if enabled then "true" else "false";
    FlagWord(enabled);
    EnabledKey();
    FieldLineIs("enabled", word);
    FlagLineText(enabled);
    EnabledIsFlagLike(FlagLine(enabled));
    LiteralLine("    enabled", ": " + word, 4);
  }

  lemma EnabledKey()
    ensures KeyStart("enabled"[0]) && forall i :: 0 <= i < |"enabled"| ==> KeyChar("enabled"[i])
    ensures "    enabled"[0] == ' ' && "    enabled"[2] == ' ' && !IsSpace("    enabled"[4])
  {
  }

  lemma FlagLineText(enabled: bool)
    ensures FlagLine(enabled) == "    enabled" + (": " + if enabled then "true" else "false")
    ensures IsEnabledLine(FlagLine(enabled))
    ensures CleanLine(FlagLine(enabled))
  {
    var word := if enabled then "true" else "false";
    var line := FlagLine(enabled);
    assert line == "    enabled" + (": " + word);
    assert line[11] == ':' && line[12] == ' ' && line[13] == word[0];
    ColonAt(line, 11, 13);
  }

  lemma FlagWord(enabled: bool)
    ensures
      var word := if enabled then "true" else "false";
      Visible(word) && OneLine(word) && (Lower(Trim(word)) != "false") == enabled
  {
    hide Trim, Lower;
    TrueWord();
    FalseWord();
  }

  lemma TrueWord()
    ensures Visible("true") && OneLine("true") && Lower(Trim("true")) != "false"
  {
    hide Trim, Lower;
    TrimKeeps("true");
    LowerKeepsFirst("true");
    assert "false"[0] == 'f';
  }

  lemma FalseWord()
    ensures Visible("false") && OneLine("false") && Lower(Trim("false")) == "false"
  {
    hide Trim, Lower;
    TrimKeeps("false");
    LowerCase("false");
  }

  lemma LowerKeepsFirst(s: string)
    requires s != ""
    ensures |Lower(s)| > 0 && Lower(s)[0] == LowerChar(s[0])
  {
  }

  lemma {:induction false} LowerCase(s: string)
    requires forall i :: 0 <= i < |s| ==> !('A' <= s[i] <= 'Z')
    ensures Lower(s) == s
  {
    if s != "" {
      LowerCase(s[1..]);
      assert s == [s[0]] + s[1..];
    }
  }

  lemma {:induction false} EnabledIsIrrelevant(lines: seq<string>, f: Fields, g: Fields)
    requires SameButEnabled(f, g)
    ensures SameButEnabled(ReadFields(lines, f), ReadFields(lines, g))
    decreases |lines|
  {
    hide FieldLine, ReadField;
    if lines != [] {
      match FieldLine(lines[0]) {
        case None => EnabledIsIrrelevant(lines[1..], f, g);
        case Some((key, raw)) =>
          FieldKeepsRest(key, raw, lines[1..], f, g);
          var r, s := ReadField(key, raw, lines[1..], f), ReadField(key, raw, lines[1..], g);
          EnabledIsIrrelevant(lines[1 + r.1..], r.0, s.0);
      }
    }
  }

  lemma FieldKeepsRest(key: string, raw: string, under: seq<string>, f: Fields, g: Fields)
    requires SameButEnabled(f, g)
    ensures ReadField(key, raw, under, f).1 == ReadField(key, raw, under, g).1
    ensures SameButEnabled(ReadField(key, raw, under, f).0, ReadField(key, raw, under, g).0)
    ensures key == "enabled" ==> SameButEnabled(ReadField(key, raw, under, f).0, g) && ReadField(key, raw, under, f).1 == 0
  {
    hide Items, EnvOf, EnvLines, ParsedScalar, ParsedInlineList, Lower, OpensInlineList, Blank;
  }

  lemma {:induction false} ItemsStopAtFlag(a: seq<string>, x: string, y: string, b: seq<string>)
    requires FlagLike(x) && FlagLike(y)
    ensures Items(a + [x] + b) == Items(a + [y] + b) == Items(a)
  {
    hide ItemLine, EnvLine, FieldLine, ParsedScalar;
    if a != [] {
      assert (a + [x] + b)[1..] == a[1..] + [x] + b;
      assert (a + [y] + b)[1..] == a[1..] + [y] + b;
      ItemsStopAtFlag(a[1..], x, y, b);
    }
  }

  lemma {:induction false} EnvStopsAtFlag(a: seq<string>, x: string, y: string, b: seq<string>, env: map<string, string>)
    requires FlagLike(x) && FlagLike(y)
    ensures EnvOf(a + [x] + b, env) == EnvOf(a + [y] + b, env) == EnvOf(a, env)
    ensures EnvLines(a + [x] + b) == EnvLines(a + [y] + b) == EnvLines(a)
    decreases |a|
  {
    hide ItemLine, EnvLine, FieldLine, ParsedScalar;
    if a != [] {
      assert (a + [x] + b)[1..] == a[1..] + [x] + b;
      assert (a + [y] + b)[1..] == a[1..] + [y] + b;
      var entry := EnvLine(a[0]);
      EnvStopsAtFlag(a[1..], x, y, b, if entry.Some? then env[entry.value.0 := ParsedScalar(entry.value.1)] else env);
    }
  }

  lemma FieldStopsAtFlag(key: string, raw: string, a: seq<string>, x: string, y: string, b: seq<string>, f: Fields)
    requires FlagLike(x) && FlagLike(y)
    ensures ReadField(key, raw, a + [x] + b, f) == ReadField(key, raw, a + [y] + b, f) == ReadField(key, raw, a, f)
  {
    hide Items, EnvOf, EnvLines, ParsedScalar, ParsedInlineList, Lower, OpensInlineList, Blank, FlagLike;
    ItemsStopAtFlag(a, x, y, b);
    EnvStopsAtFlag(a, x, y, b, map[]);
  }

  lemma FlagFirst(x: string, rest: seq<string>, f: Fields)
    requires FlagLike(x)
    ensures SameButEnabled(ReadFields([x] + rest, f), ReadFields(rest, f))
  {
    hide FieldLine, ReadField, ItemLine, EnvLine, SameButEnabled;
    assert ([x] + rest)[1..] == rest;
    match FieldLine(x)
    case None =>
      assert SameButEnabled(f, f) by {
        ReflexiveFields(f);
      }
      EnabledIsIrrelevant(rest, f, f);
    case Some((key, raw)) =>
      ReflexiveFields(f);
      FieldKeepsRest(key, raw, rest, f, f);
      ReadOn(x, rest, key, raw, f);
      assert rest[0..] == rest;
      EnabledIsIrrelevant(rest, ReadField(key, raw, rest, f).0, f);
  }

  lemma ReflexiveFields(f: Fields)
    ensures SameButEnabled(f, f)
  {
  }

  /** Setting an enabled line leaves every other field of the server alone. */
  lemma {:induction false} SwapFlag(a: seq<string>, x: string, y: string, b: seq<string>, f: Fields)
    requires FlagLike(x) && FlagLike(y)
    ensures SameButEnabled(ReadFields(a + [x] + b, f), ReadFields(a + [y] + b, f))
    decreases |a|
  {
    hide FieldLine, ReadField, FlagLike, ReadFields;
    if a == [] {
      assert a + [x] + b == [x] + b && a + [y] + b == [y] + b;
      FlagFirst(x, b, f);
      FlagFirst(y, b, f);
    } else {
      var changed, without := a[1..] + [x] + b, a[1..] + [y] + b;
      assert a + [x] + b == [a[0]] + changed && a + [y] + b == [a[0]] + without;
      match FieldLine(a[0])
      case None =>
        NoField(a[0], changed, f);
        NoField(a[0], without, f);
        SwapFlag(a[1..], x, y, b, f);
      case Some((key, raw)) =>
        FieldStopsAtFlag(key, raw, a[1..], x, y, b, f);
        var r := ReadField(key, raw, a[1..], f);
        ReadOn(a[0], changed, key, raw, f);
        ReadOn(a[0], without, key, raw, f);
        assert changed[r.1..] == a[1..][r.1..] + [x] + b;
        assert without[r.1..] == a[1..][r.1..] + [y] + b;
        SwapFlag(a[1..][r.1..], x, y, b, r.0);
    }
  }

  lemma NoField(line: string, rest: seq<string>, f: Fields)
    requires FieldLine(line).None?
    ensures ReadFields([line] + rest, f) == ReadFields(rest, f)
  {
    hide FieldLine;
    assert ([line] + rest)[1..] == rest;
  }

  lemma {:induction false} AppendFlag(a: seq<string>, x: string, f: Fields)
    requires FlagLike(x)
    ensures SameButEnabled(ReadFields(a + [x], f), ReadFields(a, f))
    decreases |a|
  {
    hide FieldLine, ReadField, FlagLike, ReadFields;
    if a == [] {
      assert a + [x] == [x] + [];
      FlagFirst(x, [], f);
    } else {
      var changed := a[1..] + [x];
      assert a + [x] == [a[0]] + changed && a == [a[0]] + a[1..];
      match FieldLine(a[0])
      case None =>
        NoField(a[0], changed, f);
        NoField(a[0], a[1..], f);
        AppendFlag(a[1..], x, f);
      case Some((key, raw)) =>
        FieldStopsAtFlag(key, raw, a[1..], x, x, [], f);
        assert a[1..] + [x] + [] == changed;
        var r := ReadField(key, raw, a[1..], f);
        ReadOn(a[0], changed, key, raw, f);
        ReadOn(a[0], a[1..], key, raw, f);
        assert changed[r.1..] == a[1..][r.1..] + [x];
        AppendFlag(a[1..][r.1..], x, r.0);
    }
  }

  // ---------------------------------------------------------------------
  // The flag that counts
  // ---------------------------------------------------------------------

  lemma ListLinesAreNoFields(line: string)
    requires ItemLine(line).Some? || EnvLine(line).Some?
    ensures FieldLine(line).None?
  {
    assert "      -"[4] == ' ' && "      "[4] == ' ';
    assert line[4] == ' ';
  }

  lemma {:induction false} ItemsHoldNoFlag(lines: seq<string>, flag: Option<bool>)
    ensures LastFlag(lines[|Items(lines)|..], flag) == LastFlag(lines, flag)
  {
    hide ItemLine, EnvLine, FieldLine, ParsedScalar, Lower;
    if lines != [] && ItemLine(lines[0]).Some? {
      ListLinesAreNoFields(lines[0]);
      ItemsHoldNoFlag(lines[1..], flag);
      assert lines[1..][|Items(lines[1..])|..] == lines[|Items(lines)|..];
    } else {
      assert lines[0..] == lines;
    }
  }

  lemma {:induction false} EnvHoldsNoFlag(lines: seq<string>, flag: Option<bool>)
    ensures LastFlag(lines[EnvLines(lines)..], flag) == LastFlag(lines, flag)
  {
    hide ItemLine, EnvLine, FieldLine, ParsedScalar, Lower;
    if lines != [] && EnvLine(lines[0]).Some? {
      ListLinesAreNoFields(lines[0]);
      EnvHoldsNoFlag(lines[1..], flag);
      assert lines[1..][EnvLines(lines[1..])..] == lines[EnvLines(lines)..];
    } else {
      assert lines[0..] == lines;
    }
  }

  lemma FieldAndFlag(key: string, raw: string, under: seq<string>, f: Fields)
    ensures
      var r := ReadField(key, raw, under, f);
      && r.0.enabled == (if key == "enabled" then Some(Lower(Trim(raw)) != "false") else f.enabled)
      && LastFlag(under[r.1..], r.0.enabled) == LastFlag(under, r.0.enabled)
  {
    hide EnvOf, ParsedScalar, ParsedInlineList, Lower, OpensInlineList, Blank, LastFlag;
    var r := ReadField(key, raw, under, f);
    ItemsHoldNoFlag(under, r.0.enabled);
    EnvHoldsNoFlag(under, r.0.enabled);
    assert under[0..] == under;
  }

  /** The enabled field is what the last of the server's enabled lines says. */
  lemma {:induction false} EnabledIsLastFlag(lines: seq<string>, f: Fields)
    ensures ReadFields(lines, f).enabled == LastFlag(lines, f.enabled)
    decreases |lines|
  {
    hide FieldLine, ReadField, Lower;
    if lines != [] {
      match FieldLine(lines[0]) {
        case None => EnabledIsLastFlag(lines[1..], f);
        case Some((key, raw)) =>
          var r := ReadField(key, raw, lines[1..], f);
          FieldAndFlag(key, raw, lines[1..], f);
          EnabledIsLastFlag(lines[1 + r.1..], r.0);
          assert lines[1..][r.1..] == lines[1 + r.1..];
      }
    }
  }

  lemma {:induction false} LastFlagAppend(a: seq<string>, b: seq<string>, flag: Option<bool>)
    ensures LastFlag(a + b, flag) == LastFlag(b, LastFlag(a, flag))
    decreases |a|
  {
    hide FieldLine, Lower;
    if a == [] {
      assert a + b == b;
    } else {
      assert (a + b)[1..] == a[1..] + b;
      var field := FieldLine(a[0]);
      LastFlagAppend(
        a[1..], b,
        if field.Some? && field.value.0 == "enabled" then Some(Lower(Trim(field.value.1)) != "false") else flag);
    }
  }

  // ---------------------------------------------------------------------
  // One server
  // ---------------------------------------------------------------------

  /** The lines behind a server's first enabled line. */
  function LaterLines(lines: seq<string>): seq<string> {
    var at := FirstEnabled(lines);
    if at == -1 then [] else lines[at + 1..]
  }

  lemma HeaderIsNotEnabled(line: string)
    requires ServerName(line).Some?
    ensures !IsEnabledLine(line)
  {
    assert ENABLED[2] == ' ';
  }

  lemma FlagAlone(enabled: bool, flag: Option<bool>)
    ensures LastFlag([FlagLine(enabled)], flag) == Some(enabled)
  {
    hide FieldLine, FlagLine, Lower;
    FlagLineShape(enabled);
    FlagWord(enabled);
  }

  /** The server read after the edit: the flag is what it was set to unless a later line overrules it. */
  lemma EditedFields(b: ServerBlock, enabled: bool)
    requires WellShaped(b)
    ensures EditServer(b.lines, enabled) != []
    ensures
      var after, before := ReadFields(EditServer(b.lines, enabled)[1..], NO_FIELDS), ReadFields(b.lines[1..], NO_FIELDS);
      && SameButEnabled(after, before)
      && after.enabled == LastFlag(LaterLines(b.lines), Some(enabled))
  {
    hide FieldLine, FlagLike, FlagLine, ServerName, Blank, IsEnabledLine, ReadFields, LastFlag, SameButEnabled,
      FirstEnabled;
    HeaderIsNotEnabled(b.lines[0]);
    if FirstEnabled(b.lines) >= 0 {
      SetField(b.lines, FirstEnabled(b.lines), enabled);
    } else {
      AddField(b.lines, enabled);
    }
  }

  lemma SetField(lines: seq<string>, at: nat, enabled: bool)
    requires 1 <= at < |lines| && IsEnabledLine(lines[at])
    ensures
      var after, before := ReadFields(lines[at := FlagLine(enabled)][1..], NO_FIELDS), ReadFields(lines[1..], NO_FIELDS);
      SameButEnabled(after, before) && after.enabled == LastFlag(lines[at + 1..], Some(enabled))
  {
    hide FieldLine, FlagLike, FlagLine, IsEnabledLine, ReadFields, LastFlag, SameButEnabled;
    var x := FlagLine(enabled);
    var front, tail := lines[1..at], lines[at + 1..];
    FlagLineShape(enabled);
    EnabledIsFlagLike(lines[at]);
    ReplacedInTail(lines, at, x);
    SwapFlag(front, x, lines[at], tail, NO_FIELDS);
    FlagThenRest(front, tail, enabled);
  }

  lemma AddField(lines: seq<string>, enabled: bool)
    requires lines != []
    ensures
      var after, before := ReadFields((lines + [FlagLine(enabled)])[1..], NO_FIELDS), ReadFields(lines[1..], NO_FIELDS);
      SameButEnabled(after, before) && after.enabled == LastFlag([], Some(enabled))
  {
    hide FieldLine, FlagLike, FlagLine, IsEnabledLine, ReadFields, LastFlag, SameButEnabled;
    var x := FlagLine(enabled);
    FlagLineShape(enabled);
    assert (lines + [x])[1..] == lines[1..] + [x];
    AppendFlag(lines[1..], x, NO_FIELDS);
    assert lines[1..] + [x] == lines[1..] + [x] + [];
    FlagThenRest(lines[1..], [], enabled);
  }

  lemma ReplacedInTail(lines: seq<string>, at: nat, x: string)
    requires 1 <= at < |lines|
    ensures lines[1..] == lines[1..at] + [lines[at]] + lines[at + 1..]
    ensures lines[at := x][1..] == lines[1..at] + [x] + lines[at + 1..]
  {
  }

  lemma FlagThenRest(front: seq<string>, tail: seq<string>, enabled: bool)
    ensures ReadFields(front + [FlagLine(enabled)] + tail, NO_FIELDS).enabled == LastFlag(tail, Some(enabled))
  {
    hide FlagLine, ReadFields, LastFlag;
    var x := FlagLine(enabled);
    EnabledIsLastFlag(front + [x] + tail, NO_FIELDS);
    LastFlagAppend(front + [x], tail, None);
    LastFlagAppend(front, [x], None);
    FlagAlone(enabled, LastFlag(front, None));
  }

  lemma EditedIsWellShaped(b: ServerBlock, enabled: bool)
    requires WellShaped(b) && Harmless(b)
    ensures
      var edited := b.(lines := EditServer(b.lines, enabled));
      WellShaped(edited) && Harmless(edited)
  {
    hide FlagLine, ServerName, Blank, EndsBlock, IsEnabledLine, FieldLine, FlagLike;
    HeaderIsNotEnabled(b.lines[0]);
    FlagLineShape(enabled);
  }

  // ---------------------------------------------------------------------
  // The section
  // ---------------------------------------------------------------------

  lemma BlanksOfGroup(inner: seq<string>, kept: nat, k: nat)
    requires inner != [] && k == InnerLength(inner[1..]) && kept == |DropBlankEnd(inner[1..1 + k])|
    ensures
      var blanks := inner[1 + kept..1 + k];
      AllBlank(blanks) && forall i :: 0 <= i < |blanks| ==> ServerName(blanks[i]).None?
  {
    hide ServerName, Blank;
    var blanks, stretch := inner[1 + kept..1 + k], inner[1..1 + k];
    assert forall i :: 0 <= i < |blanks| ==> blanks[i] == stretch[kept + i] == inner[1..][kept + i];
  }

  lemma TailOfGroup(inner: seq<string>)
    requires inner != [] && ServerName(inner[0]).Some?
    ensures
      var k := InnerLength(inner[1..]);
      var mine := [inner[0]] + DropBlankEnd(inner[1..1 + k]);
      var tail := inner[|mine|..];
      && |mine| <= 1 + k
      && InnerLength(tail) == 1 + k - |mine|
      && AllBlank(tail[..1 + k - |mine|])
      && tail[1 + k - |mine|..] == inner[1 + k..]
  {
    hide ServerName, Blank, InnerLength, DropBlankEnd;
    var k := InnerLength(inner[1..]);
    var kept := |DropBlankEnd(inner[1..1 + k])|;
    TailParts(inner, kept, k);
    BlanksOfGroup(inner, kept, k);
    StartsOrEnds(inner[1..], k);
    InnerRun(inner[1 + kept..1 + k], inner[1 + k..]);
  }

  lemma TailParts(inner: seq<string>, kept: nat, k: nat)
    requires kept <= k && 1 + k <= |inner|
    ensures
      var blanks := inner[1 + kept..1 + k];
      var tail := inner[1 + kept..];
      && tail == blanks + inner[1 + k..]
      && tail[..k - kept] == blanks && tail[k - kept..] == inner[1 + k..]
    ensures inner[1..][k..] == inner[1 + k..]
  {
  }

  lemma StartsOrEnds(lines: seq<string>, k: nat)
    requires k == InnerLength(lines)
    ensures InnerLength(lines[k..]) == 0
  {
    hide ServerName;
    if k < |lines| {
      assert lines[k..][0] == lines[k];
    }
  }

  /** The section read after the edit: the first server of the name edited, all others as they were. */
  lemma {:induction false} EditedGroups(inner: seq<string>, name: string, enabled: bool, offset: nat)
    requires NoEnd(inner)
    ensures
      var blocks := ServerBlocks(inner, offset);
      var at := FirstNamed(blocks, name);
      && Good(blocks)
      && (forall b :: b in blocks ==> b.lines != [])
      && NoEnd(EditInner(inner, name, enabled))
      && (at != -1 ==>
        && EditServer(blocks[at].lines, enabled) != []
        && Infos(ServerBlocks(EditInner(inner, name, enabled), offset))
          == Infos(blocks)[at := BlockInfo(blocks[at].(lines := EditServer(blocks[at].lines, enabled)))])
    decreases |inner|
  {
    hide ServerName, DropBlankEnd, Blank, EditServer, EditInner, InnerLength, ServerBlocks, Infos, WellShaped,
      EndsBlock;
    hide BlockInfo;
    SectionIsGood(inner, offset);
    if inner != [] {
      var line, rest := inner[0], inner[1..];
      assert inner == [line] + rest;
      match ServerName(line) {
        case None =>
          EditSkips(line, rest, name, enabled);
          EditedGroups(rest, name, enabled, offset + 1);
          NoGroup(line, EditInner(rest, name, enabled), offset);
        case Some(n) =>
          if n == name {
            EditedFirst(inner, name, enabled, offset);
          } else {
            EditedGroups(inner[1 + InnerLength(rest)..], name, enabled, offset + 1 + InnerLength(rest));
            EditedLater(inner, n, name, enabled, offset);
          }
      }
    } else {
      NothingToEdit(name, enabled, offset);
    }
  }

  lemma NothingToEdit(name: string, enabled: bool, offset: nat)
    ensures EditInner([], name, enabled) == [] && ServerBlocks([], offset) == []
  {
  }

  lemma SectionIsGood(inner: seq<string>, offset: nat)
    requires NoEnd(inner)
    ensures Good(ServerBlocks(inner, offset)) && forall b :: b in ServerBlocks(inner, offset) ==> b.lines != []
  {
    hide ServerBlocks, WellShaped, Harmless;
    GroupsAreWellShaped(inner, offset);
    GroupsAreHarmless(inner, offset);
  }

  lemma EditedFirst(inner: seq<string>, name: string, enabled: bool, offset: nat)
    requires inner != [] && ServerName(inner[0]) == Some(name) && NoEnd(inner) && Good(ServerBlocks(inner, offset))
    ensures
      var blocks := ServerBlocks(inner, offset);
      && NoEnd(EditInner(inner, name, enabled))
      && FirstNamed(blocks, name) == 0
      && EditServer(blocks[0].lines, enabled) != []
      && Infos(ServerBlocks(EditInner(inner, name, enabled), offset))
        == Infos(blocks)[0 := BlockInfo(blocks[0].(lines := EditServer(blocks[0].lines, enabled)))]
  {
    hide ServerName, DropBlankEnd, Blank, EditServer, EditInner, InnerLength, ServerBlocks, EndsBlock;
    hide BlockInfo, WellShaped;
    var k := InnerLength(inner[1..]);
    var mine := [inner[0]] + DropBlankEnd(inner[1..1 + k]);
    var tail := inner[|mine|..];
    OpensGroup(inner, name, k, offset);
    EditGroup(inner, name, name, enabled);
    TailOfGroup(inner);
    var b := ServerBlock(name, mine, offset);
    var later := ServerBlocks(inner[1 + k..], offset + 1 + k);
    assert ServerBlocks(inner, offset)[0] == b;
    assert WellShaped(b) && Harmless(b);
    EditedIsWellShaped(b, enabled);
    var edited := b.(lines := EditServer(mine, enabled));
    WellShapedHasLines(edited);
    WellShapedHasLines(b);
    FirstGroup(edited, tail, 1 + k - |mine|, offset);
    var later' := ServerBlocks(inner[1 + k..], offset + |edited.lines| + (1 + k - |mine|));
    OffsetIsIrrelevant(inner[1 + k..], offset + |edited.lines| + (1 + k - |mine|), offset + 1 + k);
    FirstReplaced(b, edited, later, later');
    assert forall i :: 0 <= i < |tail| ==> tail[i] == inner[|mine| + i];
  }

  lemma FirstReplaced(b: ServerBlock, edited: ServerBlock, later: seq<ServerBlock>, later': seq<ServerBlock>)
    requires b.lines != [] && edited.lines != []
    requires (forall c :: c in later ==> c.lines != []) && forall c :: c in later' ==> c.lines != []
    requires Infos(later') == Infos(later)
    ensures (forall c :: c in [b] + later ==> c.lines != []) && forall c :: c in [edited] + later' ==> c.lines != []
    ensures Infos([edited] + later') == Infos([b] + later)[0 := BlockInfo(edited)]
  {
    hide BlockInfo, Infos;
    InfosCons(b, later);
    InfosCons(edited, later');
  }

  lemma EditedLater(inner: seq<string>, n: string, name: string, enabled: bool, offset: nat)
    requires inner != [] && ServerName(inner[0]) == Some(n) && n != name && NoEnd(inner)
    requires Good(ServerBlocks(inner, offset))
    requires
      var k := InnerLength(inner[1..]);
      var later := ServerBlocks(inner[1 + k..], offset + 1 + k);
      var at := FirstNamed(later, name);
      && NoEnd(EditInner(inner[1 + k..], name, enabled))
      && (at != -1 ==>
        && EditServer(later[at].lines, enabled) != []
        && Infos(ServerBlocks(EditInner(inner[1 + k..], name, enabled), offset + 1 + k))
          == Infos(later)[at := BlockInfo(later[at].(lines := EditServer(later[at].lines, enabled)))])
    ensures
      var blocks := ServerBlocks(inner, offset);
      var at := FirstNamed(blocks, name);
      && (forall b :: b in blocks ==> b.lines != [])
      && NoEnd(EditInner(inner, name, enabled))
      && (at != -1 ==>
        && EditServer(blocks[at].lines, enabled) != []
        && Infos(ServerBlocks(EditInner(inner, name, enabled), offset))
          == Infos(blocks)[at := BlockInfo(blocks[at].(lines := EditServer(blocks[at].lines, enabled)))])
  {
    hide ServerName, DropBlankEnd, Blank, EditServer, EditInner, InnerLength, ServerBlocks, EndsBlock;
    hide BlockInfo, WellShaped, Infos, Harmless, NameStart, AfterColon, Reread, Steady, Servers;
    var k := InnerLength(inner[1..]);
    var mine := [inner[0]] + DropBlankEnd(inner[1..1 + k]);
    OpensGroup(inner, n, k, offset);
    EditGroup(inner, n, name, enabled);
    TailOfGroup(inner);
    var b := ServerBlock(n, mine, offset);
    var later := ServerBlocks(inner[1 + k..], offset + 1 + k);
    var edited := EditInner(inner[1 + k..], name, enabled);
    assert ServerBlocks(inner, offset)[0] == b;
    WellShapedHasLines(b);
    assert ([b] + later)[1..] == later;
    StillGrouped(inner, n, edited, name, enabled, offset);
    InfosOfLater(b, later, ServerBlocks(edited, offset + 1 + k), FirstNamed(later, name), enabled);
  }

  /** The servers in front of the edited one are grouped as before. */
  lemma StillGrouped(inner: seq<string>, n: string, edited: seq<string>, name: string, enabled: bool, offset: nat)
    requires inner != [] && ServerName(inner[0]) == Some(n) && NoEnd(inner)
    requires
      var k := InnerLength(inner[1..]);
      edited == EditInner(inner[1 + k..], name, enabled) && NoEnd(edited)
    ensures
      var k := InnerLength(inner[1..]);
      && NoEnd(inner[..1 + k] + edited)
      && ServerBlocks(inner[..1 + k] + edited, offset)
        == [ServerBlock(n, [inner[0]] + DropBlankEnd(inner[1..1 + k]), offset)] + ServerBlocks(edited, offset + 1 + k)
  {
    hide ServerName, DropBlankEnd, Blank, EditServer, EditInner, ServerBlocks, EndsBlock;
    var k := InnerLength(inner[1..]);
    var lines := inner[..1 + k] + edited;
    var stretch := inner[1..1 + k];
    assert lines[1..] == stretch + edited;
    assert forall i :: 0 <= i < k ==> stretch[i] == inner[1..][i];
    EditedStartsServer(inner[1 + k..], inner[1..], k, name, enabled);
    InnerRun(stretch, edited);
    OpensGroup(lines, n, k, offset);
    assert lines[1..1 + k] == stretch && lines[1 + k..] == edited;
  }

  lemma EditedStartsServer(rest: seq<string>, from: seq<string>, k: nat, name: string, enabled: bool)
    requires k == InnerLength(from) && rest == from[k..]
    ensures InnerLength(EditInner(rest, name, enabled)) == 0
  {
    hide ServerName, DropBlankEnd, Blank, IsEnabledLine, FlagLine;
    if rest != [] {
      assert rest[0] == from[k];
      HeaderIsNotEnabled(rest[0]);
      EditGroup(rest, ServerName(rest[0]).value, name, enabled);
    }
  }

  lemma InfosOfLater(
    b: ServerBlock, later: seq<ServerBlock>, edited: seq<ServerBlock>, at: int, enabled: bool)
    requires b.lines != [] && forall c :: c in later + edited ==> c.lines != []
    requires at == -1 || 0 <= at < |later|
    requires at != -1 ==>
      && EditServer(later[at].lines, enabled) != []
      && Infos(edited) == Infos(later)[at := BlockInfo(later[at].(lines := EditServer(later[at].lines, enabled)))]
    ensures forall c :: c in [b] + later || c in [b] + edited ==> c.lines != []
    ensures at != -1 ==>
      Infos([b] + edited)
        == Infos([b] + later)[at + 1 := BlockInfo(later[at].(lines := EditServer(later[at].lines, enabled)))]
  {
    hide BlockInfo, EditServer, Infos;
    InfosCons(b, later);
    InfosCons(b, edited);
  }

  // ---------------------------------------------------------------------
  // The document
  // ---------------------------------------------------------------------

  function FirstInfo(infos: seq<ServerInfo>, name: string): (r: int)
    ensures r == -1 || 0 <= r < |infos|
    ensures r == -1 ==> forall i :: 0 <= i < |infos| ==> infos[i].name != name
    ensures r >= 0 ==> infos[r].name == name && forall i :: 0 <= i < r ==> infos[i].name != name
  {
    if infos == [] then -1
    else if infos[0].name == name then 0
    else
      var r := FirstInfo(infos[1..], name);
      if r == -1 then -1 else r + 1
  }

  lemma {:induction false} FirstsAgree(blocks: seq<ServerBlock>, name: string)
    requires forall b :: b in blocks ==> b.lines != []
    ensures FirstInfo(Infos(blocks), name) == FirstNamed(blocks, name)
  {
    hide BlockInfo;
    if blocks != [] {
      InfoKeepsName(blocks[0]);
      FirstsAgree(blocks[1..], name);
      assert Infos(blocks)[1..] == Infos(blocks[1..]);
    }
  }

  /** The lines behind the first enabled line of the first server of a name. */
  function Overruling(content: string, name: string): seq<string> {
    var lines := SplitLines(content);
    match FindMcpBlock(lines)
    case None => []
    case Some(block) =>
      var blocks := BlocksOf(lines, block);
      var at := FirstNamed(blocks, name);
      if at == -1 then [] else LaterLines(blocks[at].lines)
  }

  /** What the server shows after the switch: the flag, unless a later enabled line overrules it. */
  predicate Shown(later: seq<string>, enabled: bool) {
    LastFlag(later, Some(enabled)) != Some(false)
  }

  /** A server with its flag set and everything else as it was. */
  function SwitchTo(info: ServerInfo, flag: bool): ServerInfo {
    info.(enabled := flag, fields := info.fields.(enabled := Some(flag)))
  }

  function SwitchedInfos(infos: seq<ServerInfo>, name: string, flag: bool): seq<ServerInfo> {
    var at := FirstInfo(infos, name);
    if at == -1 then infos else infos[at := SwitchTo(infos[at], flag)]
  }

  lemma SwitchedInfo(b: ServerBlock, enabled: bool)
    requires WellShaped(b) && b.lines != [] && EditServer(b.lines, enabled) != []
    ensures BlockInfo(b.(lines := EditServer(b.lines, enabled))) == SwitchTo(BlockInfo(b), Shown(LaterLines(b.lines), enabled))
  {
    hide ReadFields, EditServer, LaterLines, WellShaped, LastFlag;
    EditedFields(b, enabled);
    FlagIsShown(LaterLines(b.lines), enabled);
    var before, after := ReadFields(b.lines[1..], NO_FIELDS), ReadFields(EditServer(b.lines, enabled)[1..], NO_FIELDS);
    InfoOfSwitched(b.name, before, after, Shown(LaterLines(b.lines), enabled));
  }

  lemma FlagIsShown(later: seq<string>, enabled: bool)
    ensures LastFlag(later, Some(enabled)) == Some(Shown(later, enabled))
  {
    hide LastFlag;
    LastFlagIsSet(later, enabled);
    var flag := LastFlag(later, Some(enabled)).value;
    assert LastFlag(later, Some(enabled)) == Some(flag);
  }

  lemma InfoOfSwitched(name: string, before: Fields, after: Fields, flag: bool)
    requires SameButEnabled(after, before) && after.enabled == Some(flag)
    ensures InfoOf(name, after) == SwitchTo(InfoOf(name, before), flag)
  {
    var a, b := after.(enabled := None), before.(enabled := None);
    assert a == b;
    assert after == before.(enabled := Some(flag)) by {
      assert after.url == a.url && before.url == b.url && after.command == a.command && before.command == b.command;
      assert after.args == a.args && before.args == b.args && after.env == a.env && before.env == b.env;
      assert after.auth == a.auth && before.auth == b.auth && after.tools == a.tools && before.tools == b.tools;
    }
  }

  lemma {:induction false} LastFlagIsSet(lines: seq<string>, flag: bool)
    ensures LastFlag(lines, Some(flag)).Some?
    decreases |lines|
  {
    hide FieldLine, Lower;
    if lines != [] {
      var field := FieldLine(lines[0]);
      LastFlagIsSet(
        lines[1..], if field.Some? && field.value.0 == "enabled" then Lower(Trim(field.value.1)) != "false" else flag);
    }
  }

  lemma EditedSectionReads(lines: seq<string>, block: McpBlock, name: string, enabled: bool)
    requires FindMcpBlock(lines) == Some(block) && FirstNamed(BlocksOf(lines, block), name) != -1
    ensures
      var at := FirstNamed(BlocksOf(lines, block), name);
      var b := BlocksOf(lines, block)[at];
      && |ServersIn(lines)| == |BlocksOf(lines, block)|
      && WellShaped(b) && EditServer(b.lines, enabled) != []
      && FirstInfo(ServersIn(lines), name) == at
      && ServersIn(lines)[at] == BlockInfo(b)
      && ServersIn(EnabledLines(lines, name, enabled))
        == ServersIn(lines)[at := BlockInfo(b.(lines := EditServer(b.lines, enabled)))]
  {
    hide ServersIn, FindMcpBlock, EndsBlock, IsMcpHeader, EditInner, EditServer, ServerBlocks, Infos, BlockInfo,
      WellShaped;
    var inner := lines[block.startLine + 1..block.endLine];
    SectionParts(lines, block);
    EditedGroups(inner, name, enabled, 1);
    FirstsAgree(BlocksOf(lines, block), name);
    InfosAt(BlocksOf(lines, block));
    var pre, header := lines[..block.startLine], lines[block.startLine];
    assert lines[..block.startLine + 1] == pre + [header];
    SectionIsRead(pre, header, EditInner(inner, name, enabled), lines[block.endLine..]);
  }

  lemma {:induction false} EditHasNoFeeds(inner: seq<string>, name: string, enabled: bool)
    requires NoFeeds(inner)
    ensures NoFeeds(EditInner(inner, name, enabled))
    decreases |inner|
  {
    hide ServerName, NoFeed, Blank, FlagLine, IsEnabledLine, EditServer;
    if inner != [] {
      match ServerName(inner[0]) {
        case None => EditHasNoFeeds(inner[1..], name, enabled);
        case Some(n) =>
          var k := InnerLength(inner[1..]);
          var mine := [inner[0]] + DropBlankEnd(inner[1..1 + k]);
          if n == name {
            FirstHasNoFeeds(inner, k, n, 0);
            EditedServerHasNoFeeds(mine, enabled);
          } else {
            EditHasNoFeeds(inner[1 + k..], name, enabled);
          }
      }
    }
  }

  lemma EditedServerHasNoFeeds(lines: seq<string>, enabled: bool)
    requires NoFeeds(lines)
    ensures NoFeeds(EditServer(lines, enabled))
  {
    hide NoFeed, FlagLine, IsEnabledLine;
    FlagLineText(enabled);
  }

  /**
   * Without the returns that joining takes, no server appears in front of those
   * of the section, each other server's lines are read alike as they stand, and so
   * are those of the switched one as they are written.
   */
  predicate SteadyAround(inner: seq<string>, name: string, enabled: bool, last: bool)
    decreases |inner|
  {
    if inner == [] then true
    else
      match ServerName(inner[0])
      case None => StaysOutside(inner[0], last && |inner| == 1) && SteadyAround(inner[1..], name, enabled, last)
      case Some(n) =>
        var k := 1 + InnerLength(inner[1..]);
        if n == name then
          var mine := [inner[0]] + DropBlankEnd(inner[1..k]);
          ReadsAlike(EditServer(mine, enabled) + inner[|mine|..k], last && k == |inner|) && Steady(inner[k..], last)
        else ReadsAlike(inner[..k], last && k == |inner|) && SteadyAround(inner[k..], name, enabled, last)
  }

  lemma {:induction false} EditKeepsLines(inner: seq<string>, name: string, enabled: bool)
    ensures EditInner(inner, name, enabled) == [] <==> inner == []
    decreases |inner|
  {
    hide ServerName, Blank, IsEnabledLine, FlagLine;
    if inner != [] && ServerName(inner[0]).Some? {
      EditGroup(inner, ServerName(inner[0]).value, name, enabled);
    }
  }

  /** A section with one server switched reads alike exactly if it is steady around the switch. */
  lemma {:induction false} SteadyAroundExactly(inner: seq<string>, name: string, enabled: bool, last: bool)
    ensures ReadsAlike(EditInner(inner, name, enabled), last) <==> SteadyAround(inner, name, enabled, last)
    decreases |inner|
  {
    hide ServerName, Blank, EditServer, ReadsAlike, StaysOutside, InnerLength, DropBlankEnd, Steady;
    if inner == [] {
      NothingReadsAlike(last);
    } else {
      match ServerName(inner[0])
      case None =>
        EditKeepsLines(inner[1..], name, enabled);
        OutsideExactly(inner[0], EditInner(inner[1..], name, enabled), last);
        SteadyAroundExactly(inner[1..], name, enabled, last);
      case Some(n) =>
        EditGroup(inner, n, name, enabled);
        var k := 1 + InnerLength(inner[1..]);
        if n == name {
          SwitchedGroup(inner, enabled, last);
        } else {
          var rest := EditInner(inner[k..], name, enabled);
          EditedStartsServer(inner[k..], inner[1..], k - 1, name, enabled);
          NoInnerStarts(rest);
          EditKeepsLines(inner[k..], name, enabled);
          PiecesReadAlike(inner[..k], rest, last);
          SteadyAroundExactly(inner[k..], name, enabled, last);
        }
    }
  }

  lemma NoInnerStarts(lines: seq<string>)
    requires InnerLength(lines) == 0
    ensures StartsServer(lines)
  {
    hide ServerName;
  }

  lemma SwitchedGroup(inner: seq<string>, enabled: bool, last: bool)
    requires inner != [] && ServerName(inner[0]).Some?
    ensures
      var k := 1 + InnerLength(inner[1..]);
      var mine := [inner[0]] + DropBlankEnd(inner[1..k]);
      && |mine| <= k
      && (ReadsAlike(EditServer(mine, enabled) + inner[|mine|..], last) <==>
            ReadsAlike(EditServer(mine, enabled) + inner[|mine|..k], last && k == |inner|) && Steady(inner[k..], last))
  {
    hide ServerName, Blank, EditServer, ReadsAlike, Steady, DropBlankEnd, InnerLength;
    var k := 1 + InnerLength(inner[1..]);
    var mine := [inner[0]] + DropBlankEnd(inner[1..k]);
    var group := EditServer(mine, enabled) + inner[|mine|..k];
    RestStarts(inner[1..]);
    assert inner[1..][k - 1..] == inner[k..];
    assert EditServer(mine, enabled) + inner[|mine|..] == group + inner[k..];
    PiecesReadAlike(group, inner[k..], last);
    SteadyExactly(inner[k..], last);
  }

  lemma RestStarts(lines: seq<string>)
    ensures StartsServer(lines[InnerLength(lines)..])
  {
    hide ServerName;
  }

  /** The section's lines as they stand, but for the switched server's, are read alike once joined. */
  predicate SwitchReadsAlike(content: string, name: string, enabled: bool) {
    var lines := SplitLines(content);
    match FindMcpBlock(lines)
    case None => true
    case Some(block) =>
      FirstNamed(BlocksOf(lines, block), name) == -1
      || SteadyAround(lines[block.startLine + 1..block.endLine], name, enabled, block.endLine == |lines|)
  }

  /**
   * After the switch every document reads as before but for the first server of
   * the name, of which only the enabled flag differs, and which shows the flag
   * unless a later enabled line of that server overrules it; exactly if the lines
   * of the section read alike once joined.
   */
  lemma ReadAfterEnable(content: string, name: string, enabled: bool)
    ensures (ParseMcpServersFromConfig(WithEnabled(content, name, enabled))
             == SwitchedInfos(ParseMcpServersFromConfig(content), name, Shown(Overruling(content, name), enabled)))
      <==> SwitchReadsAlike(content, name, enabled)
  {
    hide ServersIn, FindMcpBlock, EditInner, ServerBlocks, Join, BlockInfo, WellShaped, EnabledLines, SteadyAround, Shown,
      SwitchTo;
    hide LaterLines, SplitLines, EditServer;
    var lines := SplitLines(content);
    match FindMcpBlock(lines)
    case None =>
      NoSectionNoServers(lines);
    case Some(block) =>
      var blocks := BlocksOf(lines, block);
      var at := FirstNamed(blocks, name);
      if at == -1 {
        SectionParts(lines, block);
        BlocksAreGood(lines, block);
        AllHaveLines(blocks);
        FirstsAgree(blocks, name);
      } else {
        EditedSectionReads(lines, block, name, enabled);
        SwitchedInfo(blocks[at], enabled);
        JoinedSwitch(lines, block, name, enabled);
      }
  }

  lemma JoinedSwitch(lines: seq<string>, block: McpBlock, name: string, enabled: bool)
    requires FindMcpBlock(lines) == Some(block) && NoFeeds(lines) && FirstNamed(BlocksOf(lines, block), name) != -1
    ensures (ParseMcpServersFromConfig(Join(EnabledLines(lines, name, enabled))) == ServersIn(EnabledLines(lines, name, enabled)))
      <==> SteadyAround(lines[block.startLine + 1..block.endLine], name, enabled, block.endLine == |lines|)
  {
    hide ServersIn, FindMcpBlock, EndsBlock, IsMcpHeader, EditInner, EditServer, ServerBlocks, Infos, BlockInfo,
      WellShaped, Reread, SteadyAround, NoFeeds, ParseMcpServersFromConfig, Join;
    var inner := lines[block.startLine + 1..block.endLine];
    var next, post := EditInner(inner, name, enabled), lines[block.endLine..];
    SectionParts(lines, block);
    BlocksAreGood(lines, block);
    EditedGroups(inner, name, enabled, 1);
    EnabledLinesHaveNoFeeds(lines, block, name, enabled);
    var pre, header := lines[..block.startLine], lines[block.startLine];
    assert lines[..block.startLine + 1] == pre + [header];
    SectionIsRead(pre, header, next, post);
    JoinedSection(EnabledLines(lines, name, enabled), pre, header, next, post);
    SteadyAroundExactly(inner, name, enabled, post == []);
  }

  lemma AllHaveLines(blocks: seq<ServerBlock>)
    requires Good(blocks)
    ensures forall b :: b in blocks ==> b.lines != []
  {
    hide WellShaped, Harmless;
    forall b | b in blocks
      ensures b.lines != []
    {
      WellShapedHasLines(b);
    }
  }

  lemma EnabledLinesHaveNoFeeds(lines: seq<string>, block: McpBlock, name: string, enabled: bool)
    requires NoFeeds(lines) && FindMcpBlock(lines) == Some(block)
    ensures NoFeeds(EnabledLines(lines, name, enabled)) && EnabledLines(lines, name, enabled) != []
  {
    hide NoFeed, FindMcpBlock, EditInner;
    var inner := lines[block.startLine + 1..block.endLine];
    assert NoFeeds(inner);
    EditHasNoFeeds(inner, name, enabled);
    ConcatHasNoFeeds(lines[..block.startLine + 1], EditInner(inner, name, enabled));
  }
}
