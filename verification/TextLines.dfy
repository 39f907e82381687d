/** Texts as lines: splitting at line feeds and joining again. */
module TextLines {
  import opened Text

  predicate NoFeed(s: string) {
    forall i :: 0 <= i < |s| ==> s[i] != '\n'
  }

  predicate AreLines(lines: seq<string>) {
    lines != [] && forall i :: 0 <= i < |lines| ==> NoFeed(lines[i])
  }

  function Split(s: string): (lines: seq<string>)
    ensures AreLines(lines)
  {
    if s == [] then [""]
    else
      var rest := Split(s[1..]);
      if s[0] == '\n' then [""] + rest else [[s[0]] + rest[0]] + rest[1..]
  }

  function Join(lines: seq<string>): string {
    if lines == [] then ""
    else if |lines| == 1 then lines[0]
    else lines[0] + "\n" + Join(lines[1..])
  }

  lemma {:induction false} JoinSplit(s: string)
    ensures Join(Split(s)) == s
  {
    if s != [] {
      var rest := Split(s[1..]);
      JoinSplit(s[1..]);
      var lines := Split(s);
      if s[0] == '\n' {
        assert lines[1..] == rest;
        assert s == "" + "\n" + s[1..];
      } else {
        assert lines[1..] == rest[1..];
        assert s == [s[0]] + s[1..];
        if |rest| > 1 {
          assert Join(lines) == [s[0]] + rest[0] + "\n" + Join(rest[1..]);
          assert Join(rest) == rest[0] + "\n" + Join(rest[1..]);
        }
      }
    }
  }

  lemma {:induction false} SplitLine(line: string)
    requires NoFeed(line)
    ensures Split(line) == [line]
  {
    if line != [] {
      SplitLine(line[1..]);
      assert line == [line[0]] + line[1..];
    }
  }

  /** A line feed in between is where both sides meet. */
  lemma {:induction false} SplitAppend(a: string, b: string)
    ensures Split(a + "\n" + b) == Split(a) + Split(b)
  {
    if a == [] {
      SplitFeed(b);
      assert "" + "\n" + b == "\n" + b;
    } else {
      var c, t := a[0], a[1..];
      SplitAppend(t, b);
      SplitCons(c, t);
      SplitCons(c, t + "\n" + b);
      assert a == [c] + t;
      assert a + "\n" + b == [c] + (t + "\n" + b);
      Grown(c, Split(t), Split(b));
    }
  }

  lemma SplitFeed(b: string)
    ensures Split("\n" + b) == [""] + Split(b)
  {
    assert ("\n" + b)[1..] == b;
  }

  /** One more character in front of some lines. */
  function Grow(c: char, lines: seq<string>): seq<string>
    requires lines != []
  {
    if c == '\n' then [""] + lines else [[c] + lines[0]] + lines[1..]
  }

  lemma SplitCons(c: char, t: string)
    ensures Split([c] + t) == Grow(c, Split(t))
  {
    assert ([c] + t)[1..] == t;
  }

  lemma Grown(c: char, a: seq<string>, b: seq<string>)
    requires a != []
    ensures Grow(c, a + b) == Grow(c, a) + b
  {
    assert (a + b)[0] == a[0];
    assert (a + b)[1..] == a[1..] + b;
  }

  lemma {:induction false} SplitJoin(lines: seq<string>)
    requires AreLines(lines)
    ensures Split(Join(lines)) == lines
  {
    if |lines| == 1 {
      SplitLine(lines[0]);
    } else {
      SplitJoin(lines[1..]);
      SplitAppend(lines[0], Join(lines[1..]));
      SplitLine(lines[0]);
      assert lines == [lines[0]] + lines[1..];
    }
  }

  // ---------------------------------------------------------------------
  // Selecting lines
  // ---------------------------------------------------------------------

  /** Those of the first n elements that are marked, in order. */
  function Selected<T>(xs: seq<T>, marks: seq<bool>, n: nat): seq<T>
    requires n <= |xs| && |marks| == |xs|
  {
    if n == 0 then [] else Selected(xs, marks, n - 1) + if marks[n - 1] then [xs[n - 1]] else []
  }

  lemma {:induction false} SelectedExtends<T>(xs: seq<T>, marks: seq<bool>, n: nat, m: nat)
    requires n <= m <= |xs| && |marks| == |xs|
    ensures Selected(xs, marks, n) <= Selected(xs, marks, m)
    decreases m
  {
    if n < m {
      SelectedExtends(xs, marks, n, m - 1);
    }
  }

  lemma {:induction false} SelectedUpTo<T>(xs: seq<T>, marks: seq<bool>, from: nat, until: nat)
    requires from <= until <= |xs| && |marks| == |xs|
    requires forall i :: from <= i < until ==> marks[i]
    ensures Selected(xs, marks, until) == Selected(xs, marks, from) + xs[from..until]
    decreases until
  {
    if from < until {
      SelectedUpTo(xs, marks, from, until - 1);
      assert xs[from..until] == xs[from..until - 1] + [xs[until - 1]];
    }
  }

  /** Neighbouring marked elements stay together, in order, behind what is selected before them. */
  lemma RunStaysTogether<T>(xs: seq<T>, marks: seq<bool>, from: nat, until: nat)
    requires from <= until <= |xs| && |marks| == |xs|
    requires forall i :: from <= i < until ==> marks[i]
    ensures
      var out := Selected(xs, marks, |xs|);
      var p := |Selected(xs, marks, from)|;
      p + (until - from) <= |out| && out[p..p + (until - from)] == xs[from..until]
  {
    SelectedUpTo(xs, marks, from, until);
    SelectedExtends(xs, marks, until, |xs|);
  }

  /** The places selected elements come from. */
  function Sources(marks: seq<bool>, n: nat): seq<nat>
    requires n <= |marks|
  {
    if n == 0 then [] else Sources(marks, n - 1) + if marks[n - 1] then [n - 1] else []
  }

  lemma {:induction false} SourcesAreTheMarked(marks: seq<bool>, n: nat)
    requires n <= |marks|
    ensures forall k :: 0 <= k < |Sources(marks, n)| ==> Sources(marks, n)[k] < n
    ensures forall k, l :: 0 <= k < l < |Sources(marks, n)| ==> Sources(marks, n)[k] < Sources(marks, n)[l]
    ensures forall i: nat :: i < n ==> (i in Sources(marks, n) <==> marks[i])
  {
    if n > 0 {
      SourcesAreTheMarked(marks, n - 1);
      var before := Sources(marks, n - 1);
      assert n - 1 !in before;
      if marks[n - 1] {
        assert Sources(marks, n) == before + [n - 1];
      } else {
        assert Sources(marks, n) == before;
      }
    }
  }

  lemma {:induction false} SelectedFromSources<T>(xs: seq<T>, marks: seq<bool>, n: nat)
    requires n <= |xs| && |marks| == |xs|
    ensures |Selected(xs, marks, n)| == |Sources(marks, n)|
    ensures forall k :: 0 <= k < |Sources(marks, n)| ==>
      Sources(marks, n)[k] < |xs| && Selected(xs, marks, n)[k] == xs[Sources(marks, n)[k]]
  {
    if n > 0 {
      SelectedFromSources(xs, marks, n - 1);
    }
  }
}
