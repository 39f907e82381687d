/** Input of the MCP section: inline lists as they are read, and server inputs as they are validated. */
module McpInput {
  import opened McpConfig
  import opened McpEdits
  import opened McpLaws
  import opened McpScalars
  import opened Text
  import opened Wrappers

  // ---------------------------------------------------------------------
  // Inline lists
  // ---------------------------------------------------------------------

  /** An item of an inline list, quoted or as it is. */
  datatype Item = Quoted(text: string) | Bare(text: string)

  /** What can stand without quotes: a word with nothing that the scan looks at. */
  predicate WellWritten(item: Item) {
    item.Bare? ==>
      && item.text != "" && Trim(item.text) == item.text
      && forall i :: 0 <= i < |item.text| ==> item.text[i] !in "\"',"
  }

  function Written(item: Item): string {
    if item.Quoted? then QuoteYamlScalar(item.text) else item.text
  }

  function Listed(items: seq<Item>): string {
    if items == [] then ""
    else if |items| == 1 then Written(items[0])
    else Written(items[0]) + ", " + Listed(items[1..])
  }

  function Texts(items: seq<Item>): seq<string> {
    if items == [] then [] else [items[0].text] + Texts(items[1..])
  }

  lemma {:induction false} ScanOn(st: ListScan, a: string, b: string)
    ensures ScanList(st, a + b) == ScanList(ScanList(st, a), b)
  {
    hide ScanChar;
    if b == [] {
      assert a + b == a;
    } else {
      assert (a + b)[..|a + b| - 1] == a + b[..|b| - 1];
      ScanOn(st, a, b[..|b| - 1]);
    }
  }

  lemma ScanOne(st: ListScan, c: char)
    ensures ScanList(st, [c]) == ScanChar(st, c)
  {
    assert ScanList(st, []) == st;
    assert [c][..0] == [];
  }

  lemma ScanTwo(st: ListScan, c: char, d: char)
    ensures ScanList(st, [c, d]) == ScanChar(ScanChar(st, c), d)
  {
    ScanOne(st, c);
    assert [c, d][..1] == [c];
  }

  const QUOTE: string := "\""

  /** Inside double quotes, an escaped text comes through as itself. */
  lemma {:induction false} EscapedIsScanned(st: ListScan, value: string)
    requires st.quote == QUOTE && !st.escaped
    ensures ScanList(st, Escaped(value)) == st.(current := st.current + value)
    decreases |value|
  {
    hide ScanList, Escaped, EscapedChar;
    if value == [] {
      NothingEscaped(st);
      assert st.current + value == st.current;
    } else {
      var c, t := value[0], value[1..];
      EscapedCons(c, t);
      assert value == [c] + t;
      ScanOn(st, EscapedChar(c), Escaped(t));
      CharIsScanned(st, c);
      EscapedIsScanned(st.(current := st.current + [c]), t);
      assert st.current + [c] + t == st.current + value;
    }
  }

  lemma NothingEscaped(st: ListScan)
    ensures Escaped("") == "" && ScanList(st, "") == st
  {
  }

  lemma CharIsScanned(st: ListScan, c: char)
    requires st.quote == QUOTE && !st.escaped
    ensures ScanList(st, EscapedChar(c)) == st.(current := st.current + [c])
  {
    if c == '\\' || c == '"' {
      ScanTwo(st, '\\', c);
      assert EscapedChar(c) == ['\\', c];
    } else {
      ScanOne(st, c);
    }
  }

  lemma QuotedIsScanned(st: ListScan, value: string)
    requires st.quote == "" && !st.escaped
    ensures ScanList(st, QuoteYamlScalar(value)) == st.(current := st.current + value)
  {
    hide Escaped, ScanList;
    var open := st.(quote := QUOTE);
    ScanOne(st, '"');
    ScanOn(st, "\"", Escaped(value));
    EscapedIsScanned(open, value);
    ScanOn(st, "\"" + Escaped(value), "\"");
    ScanOne(open.(current := st.current + value), '"');
  }

  lemma {:induction false} BareIsScanned(st: ListScan, text: string)
    requires st.quote == "" && !st.escaped
    requires forall i :: 0 <= i < |text| ==> text[i] !in "\"',"
    ensures ScanList(st, text) == st.(current := st.current + text)
    decreases |text|
  {
    if text == [] {
      assert st.current + text == st.current;
    } else {
      var init, c := text[..|text| - 1], text[|text| - 1];
      BareIsScanned(st, init);
      assert c !in "\"',";
      assert st.current + init + [c] == st.current + text;
    }
  }

  lemma WrittenIsScanned(st: ListScan, item: Item)
    requires WellWritten(item) && st.quote == "" && !st.escaped
    ensures ScanList(st, Written(item)) == st.(current := st.current + item.text)
  {
    hide ScanList, QuoteYamlScalar;
    if item.Quoted? {
      QuotedIsScanned(st, item.text);
    } else {
      BareIsScanned(st, item.text);
    }
  }

  lemma LeadingSpaceIsTrimmed(s: string)
    ensures Trim(" " + s) == Trim(s) && Trim("" + s) == Trim(s)
  {
    hide TrimEnd, IsSpace;
    SpaceEndBehindOne(s);
    assert (" " + s)[SpaceEnd(" " + s)..] == s[SpaceEnd(s)..];
    assert "" + s == s;
  }

  lemma SpaceEndBehindOne(s: string)
    ensures SpaceEnd(" " + s) == SpaceEnd(s) + 1
  {
    hide SpaceEnd;
    var t := " " + s;
    assert forall i :: 0 <= i < |s| ==> t[i + 1] == s[i];
    assert forall i :: 0 < i < SpaceEnd(s) + 1 ==> IsSpace(t[i]) by {
      forall i | 0 < i < SpaceEnd(s) + 1 ensures IsSpace(t[i]) {
        assert t[i] == s[i - 1];
      }
    }
    SpaceRun(t, 0, SpaceEnd(s) + 1);
  }

  lemma {:induction false} ListedIsScanned(st: ListScan, items: seq<Item>)
    requires items != [] && forall i :: 0 <= i < |items| ==> WellWritten(items[i])
    requires st.quote == "" && !st.escaped && (st.current == "" || st.current == " ")
    ensures
      var r := ScanList(st, Listed(items));
      r.items + [Trim(r.current)] == st.items + Trimmed(Texts(items))
    decreases |items|
  {
    hide ScanList, Trim, Written, WellWritten;
    var first := items[0];
    WrittenIsScanned(st, first);
    LeadingSpaceIsTrimmed(first.text);
    var one := st.(current := st.current + first.text);
    assert Trim(one.current) == Trim(first.text);
    if |items| == 1 {
      assert Texts(items[1..]) == [];
      assert Trimmed(Texts(items)) == [Trim(first.text)];
    } else {
      var rest := items[1..];
      var next := ListScan(st.items + [Trim(first.text)], " ", "", false);
      ScanTwo(one, ',', ' ');
      ScanOn(st, Written(first), ", ");
      ScanOn(st, Written(first) + ", ", Listed(rest));
      assert ScanList(st, Written(first) + ", ") == next;
      ListedIsScanned(next, rest);
      assert Trimmed(Texts(items)) == [Trim(first.text)] + Trimmed(Texts(rest));
    }
  }

  lemma WrittenIsVisible(item: Item)
    requires WellWritten(item)
    ensures Written(item) != "" && !IsSpace(Written(item)[0]) && !IsSpace(Written(item)[|Written(item)| - 1])
  {
    hide Escaped;
  }

  lemma {:induction false} ListedIsVisible(items: seq<Item>)
    requires items != [] && forall i :: 0 <= i < |items| ==> WellWritten(items[i])
    ensures Listed(items) != "" && !IsSpace(Listed(items)[0]) && !IsSpace(Listed(items)[|Listed(items)| - 1])
    decreases |items|
  {
    hide Written, WellWritten, IsSpace;
    WrittenIsVisible(items[0]);
    if |items| > 1 {
      ListedIsVisible(items[1..]);
    }
  }

  /** An inline list of items, quoted or bare, is read as their trimmed texts without the empty ones. */
  lemma InlineListIsRead(items: seq<Item>)
    requires forall i :: 0 <= i < |items| ==> WellWritten(items[i])
    ensures ParsedInlineList("[" + Listed(items) + "]") == NonEmpty(Trimmed(Texts(items)))
  {
    hide ScanList, WellWritten, Listed, Trim, NonEmpty, Trimmed, Texts, TrimStart, TrimEnd;
    var raw := "[" + Listed(items) + "]";
    BracketsAreVisible();
    TrimKeeps(raw);
    hide IsSpace;
    assert raw[1..|raw| - 1] == Listed(items);
    if items == [] {
      NothingListed();
    } else {
      ListedIsVisible(items);
      TrimKeeps(Listed(items));
      ListedIsScanned(ListScan([], "", "", false), items);
      assert [] + Trimmed(Texts(items)) == Trimmed(Texts(items));
    }
  }

  lemma BracketsAreVisible()
    ensures !IsSpace('[') && !IsSpace(']')
  {
  }

  lemma NothingListed()
    ensures Listed([]) == "" && Trim("") == "" && NonEmpty(Trimmed(Texts([]))) == []
  {
  }

  predicate Kept(text: string) {
    text != "" && Trim(text) == text
  }

  lemma {:induction false} KeptExactly(texts: seq<string>)
    ensures |NonEmpty(Trimmed(texts))| <= |texts|
    ensures NonEmpty(Trimmed(texts)) == texts <==> forall i :: 0 <= i < |texts| ==> Kept(texts[i])
  {
    hide Trim;
    if texts != [] {
      var rest := texts[1..];
      KeptExactly(rest);
      assert Trimmed(texts)[1..] == Trimmed(rest);
      assert texts == [texts[0]] + rest;
      assert forall i :: 0 < i < |texts| ==> texts[i] == rest[i - 1];
    }
  }

  /** The texts of an inline list come back exactly if none is empty or has blanks around it. */
  lemma InlineListComesBack(items: seq<Item>)
    requires forall i :: 0 <= i < |items| ==> WellWritten(items[i])
    ensures ParsedInlineList("[" + Listed(items) + "]") == Texts(items) <==> forall i :: 0 <= i < |items| ==> Kept(items[i].text)
  {
    hide ParsedInlineList, Kept, WellWritten, Listed;
    InlineListIsRead(items);
    KeptExactly(Texts(items));
    TextsAt(items);
  }

  lemma {:induction false} TextsAt(items: seq<Item>)
    ensures |Texts(items)| == |items| && forall i :: 0 <= i < |items| ==> Texts(items)[i] == items[i].text
  {
    if items != [] {
      TextsAt(items[1..]);
    }
  }

  // ---------------------------------------------------------------------
  // Validation
  // ---------------------------------------------------------------------

  /** Every name of the environment is one, or blank and ignored. */
  predicate NamesAllowed(entries: seq<(string, string)>) {
    forall i :: 0 <= i < |entries| ==> Trim(entries[i].0) == "" || ValidEnvName(Trim(entries[i].0))
  }

  /** The value an environment gives a name: that of its last entry, names trimmed. */
  function LastValue(entries: seq<(string, string)>, key: string): Option<string> {
    if entries == [] then None
    else
      var last := entries[|entries| - 1];
      if Trim(last.0) == key && key != "" then Some(last.1) else LastValue(entries[..|entries| - 1], key)
  }

  function ValueIn(env: map<string, string>, key: string): Option<string> {
    if key in env then Some(env[key]) else None
  }

  lemma {:induction false} EnvMapAt(env: seq<(string, string)>, m: map<string, string>, key: string)
    ensures ValueIn(EnvMap(env, m), key) == match LastEntry(env, key) case Some(v) => Some(v) case None => ValueIn(m, key)
    decreases |env|
  {
    if env != [] {
      EnvMapAt(env[1..], m[env[0].0 := env[0].1], key);
      LastEntryCons(env[0], env[1..], key);
      assert env == [env[0]] + env[1..];
    }
  }

  function LastEntry(env: seq<(string, string)>, key: string): Option<string> {
    if env == [] then None
    else if env[|env| - 1].0 == key then Some(env[|env| - 1].1)
    else LastEntry(env[..|env| - 1], key)
  }

  lemma {:induction false} LastEntryCons(e: (string, string), rest: seq<(string, string)>, key: string)
    ensures LastEntry([e] + rest, key) ==
      match LastEntry(rest, key)
      case Some(v) => Some(v)
      case None => if e.0 == key then Some(e.1) else None
    decreases |rest|
  {
    var all := [e] + rest;
    if rest == [] {
      assert all == [e] && all[..0] == [];
    } else {
      assert all[..|all| - 1] == [e] + rest[..|rest| - 1];
      LastEntryCons(e, rest[..|rest| - 1], key);
    }
  }

  predicate NoDoubles(env: seq<(string, string)>) {
    forall i, j :: 0 <= i < j < |env| ==> env[i].0 != env[j].0
  }

  /** An assignment keeps the names in their places and adds a new one at the end. */
  lemma {:induction false} AssignedNames(env: seq<(string, string)>, key: string, value: string)
    ensures
      var r := Assign(env, key, value);
      && |env| <= |r| <= |env| + 1
      && (forall i :: 0 <= i < |env| ==> r[i].0 == env[i].0)
      && (|r| > |env| ==> r[|env|].0 == key && forall i :: 0 <= i < |env| ==> env[i].0 != key)
  {
    if env != [] && env[0].0 != key {
      AssignedNames(env[1..], key, value);
    }
  }

  lemma {:induction false} NoEntry(env: seq<(string, string)>, key: string)
    requires forall i :: 0 <= i < |env| ==> env[i].0 != key
    ensures LastEntry(env, key) == None
  {
    if env != [] {
      NoEntry(env[..|env| - 1], key);
    }
  }

  /** It changes the value of its own name alone. */
  lemma {:induction false} AssignedValue(env: seq<(string, string)>, key: string, value: string, other: string)
    requires NoDoubles(env)
    ensures LastEntry(Assign(env, key, value), other) == if other == key then Some(value) else LastEntry(env, other)
  {
    hide LastEntry;
    if env == [] {
      OneEntry(key, value, other);
    } else {
      assert env == [env[0]] + env[1..];
      LastEntryCons(env[0], env[1..], other);
      if env[0].0 == key {
        LastEntryCons((key, value), env[1..], other);
        NoEntry(env[1..], key);
      } else {
        AssignedValue(env[1..], key, value, other);
        LastEntryCons(env[0], Assign(env[1..], key, value), other);
      }
    }
  }

  lemma OneEntry(key: string, value: string, other: string)
    ensures LastEntry([(key, value)], other) == if other == key then Some(value) else None
    ensures LastEntry([], other) == None
  {
    assert [(key, value)][..0] == [];
  }

  lemma {:induction false} LastValueCons(e: (string, string), rest: seq<(string, string)>, key: string)
    ensures LastValue([e] + rest, key) ==
      match LastValue(rest, key)
      case Some(v) => Some(v)
      case None => if Trim(e.0) == key && key != "" then Some(e.1) else None
    decreases |rest|
  {
    hide Trim;
    var all := [e] + rest;
    if rest == [] {
      assert all == [e] && all[..0] == [];
    } else {
      assert all[..|all| - 1] == [e] + rest[..|rest| - 1];
      LastValueCons(e, rest[..|rest| - 1], key);
    }
  }

  lemma {:induction false} CheckedExactly(entries: seq<(string, string)>, env: seq<(string, string)>, key: string)
    requires NoDoubles(env)
    ensures
      var r := CheckEnv(entries, env);
      && (r.Ok? <==> NamesAllowed(entries))
      && (r.Ok? ==>
            && NoDoubles(r.value)
            && LastEntry(r.value, key) == (match LastValue(entries, key) case Some(v) => Some(v) case None => LastEntry(env, key)))
    decreases |entries|
  {
    hide Trim, ValidEnvName, LastValue, LastEntry, NoDoubles;
    if entries == [] {
      NoValue(key);
    } else {
      var rest, name := entries[1..], Trim(entries[0].0);
      assert entries == [entries[0]] + rest;
      LastValueCons(entries[0], rest, key);
      assert NamesAllowed(entries) <==> (name == "" || ValidEnvName(name)) && NamesAllowed(rest) by {
        assert forall i :: 0 < i < |entries| ==> entries[i] == rest[i - 1];
        assert forall i :: 0 <= i < |rest| ==> rest[i] == entries[i + 1];
      }
      if name == "" {
        CheckedExactly(rest, env, key);
      } else if ValidEnvName(name) {
        AssignKeepsSingle(env, name, entries[0].1);
        AssignedValue(env, name, entries[0].1, key);
        CheckedExactly(rest, Assign(env, name, entries[0].1), key);
      }
    }
  }

  lemma NoValue(key: string)
    ensures LastValue([], key) == None && NamesAllowed([])
  {
  }

  lemma AssignKeepsSingle(env: seq<(string, string)>, key: string, value: string)
    requires NoDoubles(env)
    ensures NoDoubles(Assign(env, key, value))
  {
    AssignedNames(env, key, value);
  }

  /**
   * An input is accepted exactly if its trimmed name is a server name and it has what
   * its transport needs; what is accepted has the trimmed strings, the non-empty
   * arguments in order, and for each variable the last value given.
   */
  lemma ValidatedExactly(raw: RawInput, key: string)
    ensures
      var r, http, stdio := ValidateServerInput(raw), raw.kind == "http", raw.kind == "stdio";
      && (r.Ok? <==>
            && ValidName(Trim(raw.name))
            && ((http && IsHttpUrl(Trim(raw.url))) || (stdio && Trim(raw.command) != "" && NamesAllowed(raw.env))))
      && (r.Ok? && http ==> r.value == HttpServer(Trim(raw.name), Trim(raw.url), raw.auth))
      && (r.Ok? && stdio ==>
            && r.value.StdioServer? && r.value.name == Trim(raw.name) && r.value.command == Trim(raw.command)
            && r.value.args == NonEmpty(Trimmed(raw.args))
            && ValueIn(FieldsOf(r.value).env, key) == LastValue(raw.env, key))
      && (r == Err(BadName) <==> !ValidName(Trim(raw.name)))
      && (r == Err(BadTransport) <==> ValidName(Trim(raw.name)) && !http && !stdio)
      && (r == Err(BadUrl) <==> ValidName(Trim(raw.name)) && http && !IsHttpUrl(Trim(raw.url)))
      && (r == Err(NoCommand) <==> ValidName(Trim(raw.name)) && stdio && Trim(raw.command) == "")
  {
    hide Trim, ValidName, IsHttpUrl, CheckEnv, NamesAllowed, LastValue, LastEntry, Trimmed, NonEmpty, EnvMap;
    Kinds();
    NothingDoubled(key);
    CheckedExactly(raw.env, [], key);
    CheckErrors(raw.env, []);
    if CheckEnv(raw.env, []).Ok? {
      EnvMapAt(CheckEnv(raw.env, []).value, map[], key);
    }
  }

  lemma Kinds()
    ensures "http" != "stdio"
  {
    assert "http"[0] == 'h' && "stdio"[0] == 's';
  }

  lemma NothingDoubled(key: string)
    ensures NoDoubles([]) && LastEntry([], key) == None
  {
  }

  lemma {:induction false} CheckErrors(entries: seq<(string, string)>, env: seq<(string, string)>)
    ensures CheckEnv(entries, env).Err? ==> CheckEnv(entries, env).error.BadEnvName?
    decreases |entries|
  {
    hide Trim, ValidEnvName;
    if entries != [] {
      CheckErrors(entries[1..], env);
      CheckErrors(entries[1..], Assign(env, Trim(entries[0].0), entries[0].1));
    }
  }
}
