/**
 * Repairing a config document with several top-level model sections: the scan
 * that finds them, the choice of the one to keep, and the removal of the rest.
 */
module DuplicateModels {
  import opened Text
  import opened TextLines

  const MODEL := "model:"

  predicate OpensKey(line: string, key: string) {
    (key + ":") <= line
  }

  predicate IsModel(line: string) {
    MODEL <= line
  }

  /** Something visible stands on the model line itself. */
  predicate HasValue(line: string) {
    IsModel(line) && !Blank(line[|MODEL|..])
  }

  /** The removal's own test for a scalar: whitespace, then at least one more character up to the end. */
  predicate LooksScalar(line: string) {
    && IsModel(line)
    && exists k :: |MODEL| < k < |line| && Blank(line[|MODEL|..k]) && OneLine(line[k..])
  }

  predicate IsComment(line: string) {
    var t := Trim(line);
    t != [] && t[0] == '#'
  }

  predicate Indented(line: string) {
    SpaceEnd(line) > 0
  }

  /** A line at column 0 that is neither blank nor a comment opens a section. */
  predicate OpensSection(line: string) {
    !Indented(line) && !Blank(line) && !IsComment(line)
  }

  lemma ModelOpensSection(line: string)
    requires IsModel(line)
    ensures OpensSection(line)
  {
    assert line[0] == 'm';
    assert TrimStart(line) == line;
    assert Trim(line) <= line;
  }

  // ---------------------------------------------------------------------
  // Counting
  // ---------------------------------------------------------------------

  function KeyLines(lines: seq<string>, key: string): nat {
    if lines == [] then 0
    else KeyLines(lines[..|lines| - 1], key) + if OpensKey(lines[|lines| - 1], key) then 1 else 0
  }

  method CountTopLevelKeyLines(content: string, key: string) returns (count: nat)
    ensures count == KeyLines(Split(content), key)
  {
    var lines := Split(content);
    count := 0;
    for i := 0 to |lines|
      invariant count == KeyLines(lines[..i], key)
    {
      assert lines[..i + 1][..i] == lines[..i];
      if OpensKey(lines[i], key) {
        count := count + 1;
      }
    }
    assert lines[..|lines|] == lines;
  }

  // ---------------------------------------------------------------------
  // Choosing
  // ---------------------------------------------------------------------

  /** The first line from an index on that is neither blank nor a comment. */
  function NextContent(lines: seq<string>, from: nat): (r: nat)
    requires from <= |lines|
    ensures from <= r <= |lines|
    ensures forall i :: from <= i < r ==> Blank(lines[i]) || IsComment(lines[i])
    ensures r < |lines| ==> !Blank(lines[r]) && !IsComment(lines[r])
    decreases |lines| - from
  {
    if from < |lines| && (Blank(lines[from]) || IsComment(lines[from])) then NextContent(lines, from + 1) else from
  }

  /** A model line with nothing on it and indented content under it. */
  predicate OpensPopulated(lines: seq<string>, index: nat)
    requires index < |lines|
  {
    && IsModel(lines[index])
    && !HasValue(lines[index])
    && var next := NextContent(lines, index + 1);
       next < |lines| && Indented(lines[next])
  }

  method OpensPopulatedMapping(lines: seq<string>, index: nat) returns (r: bool)
    requires index < |lines| && IsModel(lines[index])
    ensures r <==> OpensPopulated(lines, index)
  {
    if HasValue(lines[index]) {
      return false;
    }
    var i := index + 1;
    while i < |lines|
      invariant index < i <= |lines|
      invariant NextContent(lines, index + 1) == NextContent(lines, i)
    {
      if !Blank(lines[i]) && !IsComment(lines[i]) {
        return Indented(lines[i]);
      }
      i := i + 1;
    }
    return false;
  }

  ghost predicate SomeModel(lines: seq<string>) {
    exists i :: 0 <= i < |lines| && IsModel(lines[i])
  }

  ghost predicate SomePopulated(lines: seq<string>) {
    exists i: nat :: i < |lines| && OpensPopulated(lines, i)
  }

  ghost predicate SomeValue(lines: seq<string>) {
    exists i :: 0 <= i < |lines| && HasValue(lines[i])
  }

  /** The most informative model line: populated before valued before bare, and the first of its kind. */
  ghost predicate IsChoice(lines: seq<string>, keep: int) {
    && (keep == -1 <==> !SomeModel(lines))
    && -1 <= keep < |lines|
    && (keep != -1 ==>
      && IsModel(lines[keep])
      && (SomePopulated(lines) ==>
        OpensPopulated(lines, keep) && forall i: nat :: i < keep ==> !OpensPopulated(lines, i))
      && (!SomePopulated(lines) && SomeValue(lines) ==>
        HasValue(lines[keep]) && forall i :: 0 <= i < keep ==> !HasValue(lines[i]))
      && (!SomePopulated(lines) && !SomeValue(lines) ==> forall i :: 0 <= i < keep ==> !IsModel(lines[i])))
  }

  /** The first model line from an index on that opens a populated mapping. */
  function FirstPopulated(lines: seq<string>, from: nat): (r: int)
    requires from <= |lines|
    ensures r == -1 ==> forall j: nat :: from <= j < |lines| ==> !OpensPopulated(lines, j)
    ensures r != -1 ==> from <= r < |lines| && OpensPopulated(lines, r)
    ensures r != -1 ==> forall j: nat :: from <= j < r ==> !OpensPopulated(lines, j)
    decreases |lines| - from
  {
    if from == |lines| then -1 else if OpensPopulated(lines, from) then from else FirstPopulated(lines, from + 1)
  }

  function FirstValued(lines: seq<string>, from: nat): (r: int)
    requires from <= |lines|
    ensures r == -1 ==> forall j :: from <= j < |lines| ==> !HasValue(lines[j])
    ensures r != -1 ==> from <= r < |lines| && HasValue(lines[r]) && forall j :: from <= j < r ==> !HasValue(lines[j])
    decreases |lines| - from
  {
    if from == |lines| then -1 else if HasValue(lines[from]) then from else FirstValued(lines, from + 1)
  }

  function FirstModel(lines: seq<string>, from: nat): (r: int)
    requires from <= |lines|
    ensures r == -1 ==> forall j :: from <= j < |lines| ==> !IsModel(lines[j])
    ensures r != -1 ==> from <= r < |lines| && IsModel(lines[r]) && forall j :: from <= j < r ==> !IsModel(lines[j])
    decreases |lines| - from
  {
    if from == |lines| then -1 else if IsModel(lines[from]) then from else FirstModel(lines, from + 1)
  }

  function ChooseModelLine(lines: seq<string>): (keep: int)
    ensures IsChoice(lines, keep)
  {
    var populated := FirstPopulated(lines, 0);
    var valued := FirstValued(lines, 0);
    if populated != -1 then populated else if valued != -1 then valued else FirstModel(lines, 0)
  }

  // ---------------------------------------------------------------------
  // Removing
  // ---------------------------------------------------------------------

  /** The section a line belongs to: the last section-opening line up to it, or -1. */
  function Governor(lines: seq<string>, i: int): (j: int)
    requires -1 <= i < |lines|
    ensures -1 <= j <= i
    ensures j != -1 ==> OpensSection(lines[j])
    ensures forall k :: j < k <= i ==> !OpensSection(lines[k])
    decreases i + 1
  {
    if i == -1 then -1 else if OpensSection(lines[i]) then i else Governor(lines, i - 1)
  }

  /** A model section other than the kept one loses its line, and its block unless the line looks like a scalar. */
  predicate Survives(lines: seq<string>, keep: int, i: int)
    requires 0 <= i < |lines|
  {
    var j := Governor(lines, i);
    j == -1 || !IsModel(lines[j]) || j == keep || (i != j && LooksScalar(lines[j]))
  }

  function Marks(lines: seq<string>, keep: int): (marks: seq<bool>)
    ensures |marks| == |lines|
  {
    seq(|lines|, i requires 0 <= i < |lines| => Survives(lines, keep, i))
  }

  function Surviving(lines: seq<string>, keep: int, n: nat): seq<string>
    requires n <= |lines|
  {
    Selected(lines, Marks(lines, keep), n)
  }

  ghost predicate SkippingAfter(lines: seq<string>, keep: int, i: int)
    requires -1 <= i < |lines|
  {
    var j := Governor(lines, i);
    j != -1 && IsModel(lines[j]) && j != keep && !LooksScalar(lines[j])
  }

  lemma SectionStep(lines: seq<string>, keep: int, i: nat)
    requires i < |lines|
    ensures OpensSection(lines[i]) ==>
      && (Survives(lines, keep, i) <==> !IsModel(lines[i]) || i == keep)
      && (SkippingAfter(lines, keep, i) <==> IsModel(lines[i]) && i != keep && !LooksScalar(lines[i]))
    ensures !OpensSection(lines[i]) ==>
      && !IsModel(lines[i])
      && (Survives(lines, keep, i) <==> !SkippingAfter(lines, keep, i - 1))
      && (SkippingAfter(lines, keep, i) <==> SkippingAfter(lines, keep, i - 1))
  {
    if IsModel(lines[i]) {
      ModelOpensSection(lines[i]);
    }
  }

  /** The copy of the first lines, and whether the copying is inside a section that goes. */
  ghost predicate Copied(lines: seq<string>, keep: int, i: nat, result: seq<string>, inside: bool)
    requires i <= |lines|
  {
    result == Surviving(lines, keep, i) && (inside <==> SkippingAfter(lines, keep, i - 1))
  }

  lemma CopyStep(lines: seq<string>, keep: int, i: nat, result: seq<string>, inside: bool)
    requires i < |lines| && Copied(lines, keep, i, result, inside)
    ensures
      var line := lines[i];
      && (IsModel(line) ==> OpensSection(line))
      && (inside && !OpensSection(line) ==> Copied(lines, keep, i + 1, result, true))
      && (!inside && !OpensSection(line) ==> Copied(lines, keep, i + 1, result + [line], false))
      && (OpensSection(line) && !IsModel(line) ==> Copied(lines, keep, i + 1, result + [line], false))
      && (IsModel(line) && i == keep ==> Copied(lines, keep, i + 1, result + [line], false))
      && (IsModel(line) && i != keep ==> Copied(lines, keep, i + 1, result, !LooksScalar(line)))
  {
    SectionStep(lines, keep, i);
    assert Surviving(lines, keep, i) + [] == Surviving(lines, keep, i);
  }

  datatype LineKind = ModelLine(scalar: bool) | SectionLine | InnerLine

  function KindOf(line: string): (kind: LineKind)
    ensures kind.InnerLine? <==> !OpensSection(line)
    ensures kind.ModelLine? <==> IsModel(line)
    ensures kind.ModelLine? ==> kind.scalar == LooksScalar(line)
  {
    if IsModel(line) then
      ModelOpensSection(line);
      ModelLine(LooksScalar(line))
    else if OpensSection(line) then SectionLine
    else InnerLine
  }

  /** Copies the lines, skipping every model section but the chosen one. */
  method CopyLines(lines: seq<string>, keep: int) returns (result: seq<string>)
    ensures result == Surviving(lines, keep, |lines|)
  {
    result := [];
    var insideSkippedBlock := false;
    for i := 0 to |lines|
      invariant Copied(lines, keep, i, result, insideSkippedBlock)
    {
      result, insideSkippedBlock := CopyLine(lines, keep, i, result, insideSkippedBlock);
    }
  }

  method CopyLine(lines: seq<string>, keep: int, i: nat, copied: seq<string>, inside: bool)
    returns (result: seq<string>, insideSkippedBlock: bool)
    requires i < |lines| && Copied(lines, keep, i, copied, inside)
    ensures Copied(lines, keep, i + 1, result, insideSkippedBlock)
  {
    result, insideSkippedBlock := copied, inside;
    CopyStep(lines, keep, i, copied, inside);
    var kind := KindOf(lines[i]);
    if insideSkippedBlock {
      if kind.InnerLine? {
        return;
      }
      insideSkippedBlock := false;
    }
    if kind.ModelLine? {
      if i == keep {
        result := result + [lines[i]];
      } else if !kind.scalar {
        insideSkippedBlock := true;
      }
      return;
    }
    result := result + [lines[i]];
  }

  method RemoveDuplicateModelKeys(content: string) returns (repaired: string)
    ensures
      var lines := Split(content);
      repaired == Join(Surviving(lines, ChooseModelLine(lines), |lines|))
  {
    var lines := Split(content);
    var result := CopyLines(lines, ChooseModelLine(lines));
    repaired := Join(result);
  }
}
