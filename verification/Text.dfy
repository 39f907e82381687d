/** The JavaScript string operations the text editors are built from. */
module Text {
  /** Whitespace as `\s` and `trim` see it. */
  predicate IsSpace(c: char) {
    || '\t' <= c <= '\r'
    || c == ' '
    || c == '\U{00A0}'
    || c == '\U{1680}'
    || '\U{2000}' <= c <= '\U{200A}'
    || c == '\U{2028}'
    || c == '\U{2029}'
    || c == '\U{202F}'
    || c == '\U{205F}'
    || c == '\U{3000}'
    || c == '\U{FEFF}'
  }

  /** The characters `.` does not match. */
  predicate IsTerminator(c: char) {
    c == '\n' || c == '\r' || c == '\U{2028}' || c == '\U{2029}'
  }

  predicate OneLine(s: string) {
    forall i :: 0 <= i < |s| ==> !IsTerminator(s[i])
  }

  predicate Blank(s: string) {
    forall i :: 0 <= i < |s| ==> IsSpace(s[i])
  }

  /** Where the text after the leading whitespace begins. */
  function SpaceEnd(s: string, from: nat := 0): (r: nat)
    requires from <= |s|
    ensures from <= r <= |s|
    ensures forall i :: from <= i < r ==> IsSpace(s[i])
    ensures r < |s| ==> !IsSpace(s[r])
    decreases |s| - from
  {
    if from < |s| && IsSpace(s[from]) then SpaceEnd(s, from + 1) else from
  }

  function TrimStart(s: string): (r: string)
    ensures r == [] <==> Blank(s)
    ensures r != [] ==> !IsSpace(r[0])
  {
    s[SpaceEnd(s)..]
  }

  function TrimEnd(s: string): (r: string)
    ensures r <= s
    ensures r == [] <==> Blank(s)
    ensures r != [] ==> !IsSpace(r[|r| - 1])
    ensures forall i :: |r| <= i < |s| ==> IsSpace(s[i])
  {
    if s != [] && IsSpace(s[|s| - 1]) then TrimEnd(s[..|s| - 1]) else s
  }

  function Trim(s: string): (r: string)
    ensures r == [] <==> Blank(s)
    ensures r != [] ==> !IsSpace(r[0]) && !IsSpace(r[|r| - 1])
  {
    var t := TrimStart(s);
    assert t != [] ==> !Blank(t);
    TrimEnd(t)
  }

  /** Trimming leaves a text alone that starts and ends with something else than whitespace. */
  lemma TrimKeeps(s: string)
    requires s == [] || (!IsSpace(s[0]) && !IsSpace(s[|s| - 1]))
    ensures Trim(s) == s && TrimStart(s) == s && TrimEnd(s) == s
  {
  }

  predicate At(s: string, needle: string, i: int) {
    0 <= i && i + |needle| <= |s| && s[i..i + |needle|] == needle
  }

  predicate Includes(s: string, needle: string) {
    exists i :: 0 <= i <= |s| && At(s, needle, i)
  }

  function IndexOf(s: string, needle: string, from: nat): (r: int)
    requires from <= |s|
    ensures r == -1 || from <= r <= |s| - |needle|
    ensures r == -1 ==> forall i :: from <= i ==> !At(s, needle, i)
    ensures r != -1 ==> At(s, needle, r) && forall i :: from <= i < r ==> !At(s, needle, i)
    decreases |s| - from
  {
    if At(s, needle, from) then from
    else if from == |s| then -1
    else IndexOf(s, needle, from + 1)
  }

  /** Identifiers as configuration keys are written. */
  predicate KeyStart(c: char) {
    'A' <= c <= 'Z' || 'a' <= c <= 'z' || c == '_'
  }

  predicate KeyChar(c: char) {
    KeyStart(c) || '0' <= c <= '9' || c == '-'
  }

  function KeyEnd(s: string, from: nat): (r: nat)
    requires from <= |s|
    ensures from <= r <= |s|
    ensures forall i :: from <= i < r ==> KeyChar(s[i])
    ensures r < |s| ==> !KeyChar(s[r])
    decreases |s| - from
  {
    if from < |s| && KeyChar(s[from]) then KeyEnd(s, from + 1) else from
  }
}
