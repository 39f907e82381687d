/** What the repair of duplicate model sections keeps and removes. */
module DuplicateModelLaws {
  import opened DuplicateModels
  import opened Text
  import opened TextLines

  function Repaired(lines: seq<string>): seq<string> {
    Surviving(lines, ChooseModelLine(lines), |lines|)
  }

  // ---------------------------------------------------------------------
  // One model line
  // ---------------------------------------------------------------------

  lemma SurvivalOfModels(lines: seq<string>, keep: int, i: nat)
    requires i < |lines| && IsModel(lines[i])
    ensures Survives(lines, keep, i) <==> i == keep
  {
    ModelOpensSection(lines[i]);
  }

  lemma {:induction false} ModelsSelected(lines: seq<string>, marks: seq<bool>, keep: int, n: nat)
    requires n <= |lines| && |marks| == |lines|
    requires forall i: nat :: i < |lines| && OpensKey(lines[i], "model") ==> (marks[i] <==> i == keep)
    requires 0 <= keep < |lines| ==> OpensKey(lines[keep], "model")
    ensures KeyLines(Selected(lines, marks, n), "model") == if 0 <= keep < n then 1 else 0
  {
    if n > 0 {
      ModelsSelected(lines, marks, keep, n - 1);
      var before := Selected(lines, marks, n - 1);
      assert OpensKey(lines[n - 1], "model") ==> (marks[n - 1] <==> n - 1 == keep);
      if marks[n - 1] {
        assert (before + [lines[n - 1]])[..|before|] == before;
      } else {
        assert before + [] == before;
      }
    }
  }

  lemma {:induction false} SelectedAreLines(lines: seq<string>, marks: seq<bool>, n: nat)
    requires n <= |lines| && |marks| == |lines| && forall i :: 0 <= i < |lines| ==> NoFeed(lines[i])
    ensures forall i :: 0 <= i < |Selected(lines, marks, n)| ==> NoFeed(Selected(lines, marks, n)[i])
  {
    SelectedFromSources(lines, marks, n);
  }

  /** A document with a model section is left with exactly one, as the repaired text is read again. */
  lemma OneModelLineIsLeft(content: string)
    requires SomeModel(Split(content))
    ensures KeyLines(Split(Join(Repaired(Split(content)))), "model") == 1
    ensures Split(Join(Repaired(Split(content)))) == Repaired(Split(content))
  {
    var lines := Split(content);
    var keep := ChooseModelLine(lines);
    assert "model" + ":" == MODEL;
    forall i: nat | i < |lines| && OpensKey(lines[i], "model")
      ensures Marks(lines, keep)[i] <==> i == keep
    {
      SurvivalOfModels(lines, keep, i);
    }
    ModelsSelected(lines, Marks(lines, keep), keep, |lines|);
    SelectedAreLines(lines, Marks(lines, keep), |lines|);
    SplitJoin(Repaired(lines));
  }

  lemma {:induction false} ModelsCounted(lines: seq<string>, i: int, j: int)
    requires 0 <= i < |lines| && IsModel(lines[i])
    ensures KeyLines(lines, "model") >= 1
    ensures i < j < |lines| && IsModel(lines[j]) ==> KeyLines(lines, "model") >= 2
  {
    assert "model" + ":" == MODEL;
    var last := |lines| - 1;
    if i < last {
      ModelsCounted(lines[..last], i, j);
    }
  }

  /** A document with at most one model section comes back unchanged. */
  lemma SingleModelIsUntouched(content: string)
    requires KeyLines(Split(content), "model") <= 1
    ensures Join(Repaired(Split(content))) == content
  {
    var lines := Split(content);
    var keep := ChooseModelLine(lines);
    forall i | 0 <= i < |lines|
      ensures Survives(lines, keep, i)
    {
      var j := Governor(lines, i);
      if j != -1 && IsModel(lines[j]) {
        assert SomeModel(lines);
        ModelsCounted(lines, j, keep);
        ModelsCounted(lines, keep, j);
      }
    }
    SelectedUpTo(lines, Marks(lines, keep), 0, |lines|);
    assert [] + lines[0..|lines|] == lines;
    JoinSplit(content);
  }

  /** Repairing a repaired document changes nothing. */
  lemma RepairIsIdempotent(content: string)
    ensures Join(Repaired(Split(Join(Repaired(Split(content)))))) == Join(Repaired(Split(content)))
  {
    if SomeModel(Split(content)) {
      OneModelLineIsLeft(content);
      SingleModelIsUntouched(Join(Repaired(Split(content))));
    } else {
      NoModelsCounted(Split(content));
      SingleModelIsUntouched(content);
    }
  }

  lemma {:induction false} NoModelsCounted(lines: seq<string>)
    requires !SomeModel(lines)
    ensures KeyLines(lines, "model") == 0
  {
    assert "model" + ":" == MODEL;
    if lines != [] {
      var last := |lines| - 1;
      assert forall i :: 0 <= i < last ==> lines[..last][i] == lines[i];
      NoModelsCounted(lines[..last]);
    }
  }

  // ---------------------------------------------------------------------
  // What stays, and where
  // ---------------------------------------------------------------------

  /** The output is the subsequence of exactly the surviving lines. */
  lemma OutputIsSubsequence(lines: seq<string>, keep: int)
    ensures
      var out, at := Surviving(lines, keep, |lines|), Sources(Marks(lines, keep), |lines|);
      && |out| == |at|
      && (forall k :: 0 <= k < |at| ==> at[k] < |lines| && out[k] == lines[at[k]])
      && (forall k, l :: 0 <= k < l < |at| ==> at[k] < at[l])
      && (forall i: nat :: i < |lines| ==> (i in at <==> Survives(lines, keep, i)))
  {
    SourcesAreTheMarked(Marks(lines, keep), |lines|);
    SelectedFromSources(lines, Marks(lines, keep), |lines|);
    assert forall i: nat :: i < |lines| ==> Marks(lines, keep)[i] == Survives(lines, keep, i);
  }

  /** Where the section opened at a line ends. */
  function SectionEnd(lines: seq<string>, from: nat): (r: nat)
    requires from <= |lines|
    ensures from <= r <= |lines|
    ensures forall i :: from <= i < r ==> !OpensSection(lines[i])
    ensures r < |lines| ==> OpensSection(lines[r])
    decreases |lines| - from
  {
    if from < |lines| && !OpensSection(lines[from]) then SectionEnd(lines, from + 1) else from
  }

  lemma {:induction false} GovernedBy(lines: seq<string>, i: nat, k: nat)
    requires i <= k < |lines| && OpensSection(lines[i])
    requires forall l :: i < l <= k ==> !OpensSection(lines[l])
    ensures Governor(lines, k) == i
    decreases k
  {
    if i < k {
      GovernedBy(lines, i, k - 1);
    }
  }

  lemma SectionSurvives(lines: seq<string>, keep: int, i: nat, k: nat)
    requires i < |lines| && OpensSection(lines[i]) && i <= k < SectionEnd(lines, i + 1)
    requires IsModel(lines[i]) ==> i == keep
    ensures Marks(lines, keep)[k]
  {
    GovernedBy(lines, i, k);
  }

  /** Every other section, and the kept model section, stays whole: its header and all its lines in order. */
  lemma SectionsStayWhole(lines: seq<string>, keep: int, i: nat)
    requires i < |lines| && OpensSection(lines[i])
    requires IsModel(lines[i]) ==> i == keep
    ensures
      var out := Surviving(lines, keep, |lines|);
      var p := |Surviving(lines, keep, i)|;
      var end := SectionEnd(lines, i + 1);
      p + (end - i) <= |out| && out[p..p + (end - i)] == lines[i..end]
  {
    hide IsModel, OpensSection, Survives, Marks, Selected, SectionEnd;
    var end := SectionEnd(lines, i + 1);
    var marks := Marks(lines, keep);
    forall k | i <= k < end
      ensures marks[k]
    {
      SectionSurvives(lines, keep, i, k);
    }
    RunStaysTogether(lines, marks, i, end);
  }

  lemma SameStretch(a: seq<string>, i: nat, b: seq<string>, j: nat, n: nat)
    requires i + n <= |a| && j + n <= |b| && a[i..i + n] == b[j..j + n]
    ensures forall k :: i <= k < i + n ==> a[k] == b[j + (k - i)]
  {
    forall k | i <= k < i + n
      ensures a[k] == b[j + (k - i)]
    {
      assert a[k] == a[i..i + n][k - i];
      assert b[j + (k - i)] == b[j..j + n][k - i];
    }
  }

  /** The next content under a line is found again where the same stretch of lines stands in another document. */
  lemma NextContentMoves(a: seq<string>, i: nat, b: seq<string>, j: nat, n: nat)
    requires 0 < n && i + n <= |a| && j + n <= |b| && a[i..i + n] == b[j..j + n]
    requires NextContent(b, j + 1) < j + n
    ensures NextContent(a, i + 1) == i + (NextContent(b, j + 1) - j) < |a|
    ensures a[NextContent(a, i + 1)] == b[NextContent(b, j + 1)]
    ensures a[i] == b[j]
  {
    SameStretch(a, i, b, j, n);
    var next := NextContent(b, j + 1);
    assert a[i + (next - j)] == b[next];
    var next' := NextContent(a, i + 1);
    assert next' <= i + (next - j);
    assert a[next'] == b[j + (next' - i)];
  }

  lemma PopulatedSection(lines: seq<string>, i: nat)
    requires i < |lines| && OpensPopulated(lines, i)
    ensures OpensSection(lines[i])
    ensures NextContent(lines, i + 1) < SectionEnd(lines, i + 1)
  {
    ModelOpensSection(lines[i]);
    var next := NextContent(lines, i + 1);
    assert forall k :: i < k <= next ==> !OpensSection(lines[k]);
  }

  /** A line of the output is the given model line, and the content right under it is the same. */
  predicate StillPopulated(lines: seq<string>, keep: nat, out: seq<string>, p: nat) {
    && keep < |lines| && p < |out|
    && out[p] == lines[keep]
    && OpensPopulated(out, p)
    && NextContent(lines, keep + 1) < |lines|
    && NextContent(out, p + 1) - p == NextContent(lines, keep + 1) - keep
    && out[NextContent(out, p + 1)] == lines[NextContent(lines, keep + 1)]
  }

  lemma PopulatedSectionStays(lines: seq<string>, keep: nat, out: seq<string>, p: nat)
    requires keep < |lines| && OpensPopulated(lines, keep)
    requires
      var end := SectionEnd(lines, keep + 1);
      p + (end - keep) <= |out| && out[p..p + (end - keep)] == lines[keep..end]
    ensures StillPopulated(lines, keep, out, p)
  {
    PopulatedSection(lines, keep);
    NextContentMoves(out, p, lines, keep, SectionEnd(lines, keep + 1) - keep);
  }

  lemma PopulatedModelStays(lines: seq<string>, keep: nat)
    requires keep < |lines| && OpensPopulated(lines, keep)
    ensures StillPopulated(lines, keep, Surviving(lines, keep, |lines|), |Surviving(lines, keep, keep)|)
  {
    PopulatedSection(lines, keep);
    SectionsStayWhole(lines, keep, keep);
    PopulatedSectionStays(lines, keep, Surviving(lines, keep, |lines|), |Surviving(lines, keep, keep)|);
  }

  /** If any model section is a populated mapping, the one that is left is, with its own children. */
  lemma KeptModelStaysPopulated(lines: seq<string>)
    requires SomePopulated(lines)
    ensures ChooseModelLine(lines) >= 0
    ensures StillPopulated(
      lines, ChooseModelLine(lines), Repaired(lines),
      |Surviving(lines, ChooseModelLine(lines), ChooseModelLine(lines))|)
  {
    assert SomeModel(lines);
    PopulatedModelStays(lines, ChooseModelLine(lines));
  }

  // ---------------------------------------------------------------------
  // What is left behind
  // ---------------------------------------------------------------------

  /**
   * Whitespace behind the colon, at least one character after it, and no line
   * terminator from the value on, or in the last character when there is none.
   */
  predicate ShowsScalar(line: string)
    requires IsModel(line)
  {
    && |line| >= |MODEL| + 2
    && IsSpace(line[|MODEL|])
    && var value := SpaceEnd(line, |MODEL|);
       OneLine(line[if value < |line| then value else |line| - 1..])
  }

  lemma {:induction false} BlankUpTo(line: string, from: nat, until: nat)
    requires from <= until <= |line| && Blank(line[from..until])
    ensures until <= SpaceEnd(line, from)
    decreases until - from
  {
    if from < until {
      assert line[from..until][0] == line[from];
      assert line[from..until][1..] == line[from + 1..until];
      BlankUpTo(line, from + 1, until);
    }
  }

  lemma LooksScalarExactly(line: string)
    requires IsModel(line)
    ensures LooksScalar(line) <==> ShowsScalar(line)
  {
    hide IsSpace, IsTerminator;
    var value := SpaceEnd(line, |MODEL|);
    var last := if value < |line| then value else |line| - 1;
    if k :| |MODEL| < k < |line| && Blank(line[|MODEL|..k]) && OneLine(line[k..]) {
      assert IsSpace(line[|MODEL|..k][0]);
      BlankUpTo(line, |MODEL|, k);
      assert line[last..] == line[k..][last - k..];
    }
    if ShowsScalar(line) {
      assert forall i :: |MODEL| <= i < last ==> IsSpace(line[i]);
      assert Blank(line[|MODEL|..last]);
    }
  }

  /** On a bare line, two characters behind the colon are enough, whatever whitespace but a final terminator. */
  lemma BareShowsScalarExactly(line: string)
    requires IsModel(line) && !HasValue(line)
    ensures ShowsScalar(line) <==> |line| >= |MODEL| + 2 && !IsTerminator(line[|line| - 1])
  {
    hide IsSpace, IsTerminator;
    assert line[|MODEL|..] == line[|MODEL|..|line|];
    BlankUpTo(line, |MODEL|, |line|);
    if |line| > |MODEL| {
      assert line[|MODEL|..][0] == line[|MODEL|];
      assert line[|line| - 1..] == [line[|line| - 1]];
    }
  }

  /**
   * The lines under a dropped model line go with it, or all of them stay, right
   * behind what is left of the lines before it; they stay exactly if the line
   * shows a scalar, which a bare line does as soon as it ends in two characters
   * of whitespace the last of which is no line terminator.
   */
  lemma ChildrenGoExactly(lines: seq<string>, i: nat)
    requires i < |lines| && IsModel(lines[i]) && i != ChooseModelLine(lines)
    ensures
      var keep, end, line := ChooseModelLine(lines), SectionEnd(lines, i + 1), lines[i];
      && Surviving(lines, keep, end)
        == Surviving(lines, keep, i) + (if ShowsScalar(line) then lines[i + 1..end] else [])
      && Surviving(lines, keep, end) <= Repaired(lines)
      && (!HasValue(line) ==> (ShowsScalar(line) <==> |line| >= |MODEL| + 2 && !IsTerminator(line[|line| - 1])))
  {
    hide ShowsScalar, HasValue, IsTerminator, SectionEnd, Selected, Marks, IsModel, ChooseModelLine;
    var keep, end := ChooseModelLine(lines), SectionEnd(lines, i + 1);
    var marks := Marks(lines, keep);
    if !HasValue(lines[i]) {
      BareShowsScalarExactly(lines[i]);
    }
    DroppedMarks(lines, keep, i);
    SelectedExtends(lines, marks, end, |lines|);
    NothingSelected(lines, marks, i, i + 1);
    if ShowsScalar(lines[i]) {
      SelectedUpTo(lines, marks, i + 1, end);
    } else {
      NothingSelected(lines, marks, i + 1, end);
    }
  }

  lemma DroppedMarks(lines: seq<string>, keep: int, i: nat)
    requires i < |lines| && IsModel(lines[i]) && i != keep
    ensures forall k :: i <= k < SectionEnd(lines, i + 1) ==> (Marks(lines, keep)[k] <==> i < k && ShowsScalar(lines[i]))
  {
    hide ShowsScalar, SectionEnd, OpensSection, LooksScalar, IsModel;
    LooksScalarExactly(lines[i]);
    ModelOpensSection(lines[i]);
    forall k | i <= k < SectionEnd(lines, i + 1)
      ensures Marks(lines, keep)[k] <==> i < k && ShowsScalar(lines[i])
    {
      GovernedBy(lines, i, k);
    }
  }

  lemma {:induction false} NothingSelected(lines: seq<string>, marks: seq<bool>, from: nat, until: nat)
    requires from <= until <= |lines| && |marks| == |lines|
    requires forall k :: from <= k < until ==> !marks[k]
    ensures Selected(lines, marks, until) == Selected(lines, marks, from)
    decreases until
  {
    if from < until {
      NothingSelected(lines, marks, from, until - 1);
    }
  }
}
