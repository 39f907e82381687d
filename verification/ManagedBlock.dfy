/**
 * The marker-delimited identity block inside SOUL.md: how it is found, written
 * and replaced inside text that belongs to the user.
 */
module ManagedBlock {
  import opened Text
  import opened Wrappers

  const BEGIN := "<!-- AERA:AGENT_IDENTITY:BEGIN -->"
  const END := "<!-- AERA:AGENT_IDENTITY:END -->"
  const HEADING := "\n## Agent Identity\n\nYour name is \U{201C}"
  const CLOSING_QUOTE := '\U{201D}'
  const ADVICE := ".\nUse this name consistently " + "when referring to yourself.\n"
  const SCOPE := "This identity belongs only " + "to the current Agent Profile.\n" + "Identity revision: "

  datatype BlockError = CorruptBlock | CorruptBackup

  // ---------------------------------------------------------------------
  // Counting markers
  // ---------------------------------------------------------------------

  /** Every place where a needle stands in a text. */
  ghost function Places(s: string, needle: string): set<int> {
    set i | 0 <= i <= |s| && At(s, needle, i)
  }

  /** A text that never overlaps a copy of itself: its first character does not come back. */
  predicate Distinctive(needle: string) {
    needle != [] && forall i :: 0 < i < |needle| ==> needle[i] != needle[0]
  }

  /** The loop resumes after each hit, so it counts every place of a distinctive needle. */
  method CountOccurrences(value: string, needle: string) returns (count: nat)
    requires Distinctive(needle)
    ensures count == |Places(value, needle)|
  {
    count := 0;
    var offset := 0;
    ghost var seen: set<int> := {};
    while true
      invariant 0 <= offset <= |value|
      invariant seen == set i | 0 <= i < offset && At(value, needle, i)
      invariant count == |seen|
      invariant forall i :: 0 <= i < offset && At(value, needle, i) ==> i + |needle| <= offset
      decreases |value| - offset
    {
      var index := IndexOf(value, needle, offset);
      if index == -1 {
        assert Places(value, needle) == seen;
        return;
      }
      NoOverlap(value, needle, index);
      seen := seen + {index};
      count := count + 1;
      offset := index + |needle|;
    }
  }

  lemma NoOverlap(s: string, needle: string, index: int)
    requires Distinctive(needle) && At(s, needle, index)
    ensures forall i :: index < i < index + |needle| ==> !At(s, needle, i)
  {
    forall i | index < i < index + |needle|
      ensures !At(s, needle, i)
    {
      assert s[i] == s[index..index + |needle|][i - index];
    }
  }

  // ---------------------------------------------------------------------
  // The block
  // ---------------------------------------------------------------------

  function Digit(d: nat): char
    requires d < 10
  {
    (d as char) + '0'
  }

  function Decimal(n: nat): (s: string)
    ensures s != []
    ensures forall i :: 0 <= i < |s| ==> '0' <= s[i] <= '9'
  {
    if n < 10 then [Digit(n)] else Decimal(n / 10) + [Digit(n % 10)]
  }

  function Middle(displayName: string, revision: nat): string {
    HEADING + displayName + [CLOSING_QUOTE] + ADVICE + SCOPE + Decimal(revision) + ".\n"
  }

  function IdentityBlock(displayName: string, revision: nat): string {
    BEGIN + Middle(displayName, revision) + END
  }

  /** What name normalization refuses: text that could open or close a comment. */
  predicate PlainName(name: string) {
    !Includes(name, "<!--") && !Includes(name, "-->")
  }

  // ---------------------------------------------------------------------
  // Updating
  // ---------------------------------------------------------------------

  ghost predicate Unmarked(soul: string) {
    Places(soul, BEGIN) == {} && Places(soul, END) == {}
  }

  /** One marker of each kind, in the right order. */
  ghost predicate Marked(soul: string) {
    exists start: int, end: int {:trigger At(soul, BEGIN, start), At(soul, END, end)} ::
      IsPair(soul, start, end)
  }

  ghost predicate IsPair(soul: string, start: int, end: int) {
    && At(soul, BEGIN, start) && At(soul, END, end) && start < end
    && Places(soul, BEGIN) == {start} && Places(soul, END) == {end}
  }

  ghost function Updated(soul: string, displayName: string, revision: nat): Result<string, BlockError>
  {
    var block := IdentityBlock(displayName, revision);
    if Unmarked(soul) then
      Ok(if Trim(soul) != [] then block + "\n\n" + TrimStart(soul) else block + "\n")
    else if |Places(soul, BEGIN)| != 1 || |Places(soul, END)| != 1 then Err(CorruptBlock)
    else
      FirstPlace(soul, BEGIN);
      FirstPlace(soul, END);
      var start := IndexOf(soul, BEGIN, 0);
      var end := IndexOf(soul, END, 0);
      if end < start then Err(CorruptBlock)
      else Ok(soul[..start] + block + soul[end + |END|..])
  }

  method UpdateManagedIdentityBlock(soul: string, displayName: string, revision: nat)
    returns (r: Result<string, BlockError>)
    ensures r == Updated(soul, displayName, revision)
  {
    var block := IdentityBlock(displayName, revision);
    var starts := CountOccurrences(soul, BEGIN);
    var ends := CountOccurrences(soul, END);
    if starts == 0 && ends == 0 {
      return Ok(if Trim(soul) != [] then block + "\n\n" + TrimStart(soul) else block + "\n");
    }
    if starts != 1 || ends != 1 {
      return Err(CorruptBlock);
    }
    var start := IndexOf(soul, BEGIN, 0);
    var end := IndexOf(soul, END, 0);
    FirstPlace(soul, BEGIN);
    FirstPlace(soul, END);
    if end < start {
      return Err(CorruptBlock);
    }
    var after := end + |END|;
    return Ok(soul[..start] + block + soul[after..]);
  }

  /** The SOUL text an undo writes back: the snapshot, its block renewed if it has one. */
  ghost function Restored(snapshot: Option<string>, displayName: string, revision: nat): Result<Option<string>, BlockError>
  {
    match snapshot
    case None => Ok(None)
    case Some(soul) =>
      if Unmarked(soul) then Ok(Some(soul))
      else if displayName == "" then Err(CorruptBackup)
      else
        match Updated(soul, displayName, revision)
        case Ok(text) => Ok(Some(text))
        case Err(e) => Err(e)
  }

  method RestoreSoulSnapshot(snapshot: Option<string>, displayName: string, revision: nat)
    returns (r: Result<Option<string>, BlockError>)
    ensures r == Restored(snapshot, displayName, revision)
  {
    if snapshot.None? {
      return Ok(None);
    }
    var starts := CountOccurrences(snapshot.value, BEGIN);
    var ends := CountOccurrences(snapshot.value, END);
    if starts == 0 && ends == 0 {
      return Ok(Some(snapshot.value));
    }
    if displayName == "" {
      return Err(CorruptBackup);
    }
    var text := UpdateManagedIdentityBlock(snapshot.value, displayName, revision);
    match text
    case Ok(t) => return Ok(Some(t));
    case Err(e) => return Err(e);
  }

  lemma FirstPlace(s: string, needle: string)
    requires |Places(s, needle)| == 1
    ensures IndexOf(s, needle, 0) != -1 && Places(s, needle) == {IndexOf(s, needle, 0)}
  {
    var i :| i in Places(s, needle);
    assert |Places(s, needle) - {i}| == 0;
    assert At(s, needle, i);
    assert IndexOf(s, needle, 0) in Places(s, needle);
  }

  /** A SOUL text the marker check lets through: no markers, or one pair in order. */
  ghost predicate Accepted(soul: string) {
    Unmarked(soul) || Marked(soul)
  }

  lemma UpdateAcceptedExactly(soul: string, displayName: string, revision: nat)
    ensures Updated(soul, displayName, revision).Ok? <==> Accepted(soul)
  {
    hide IdentityBlock, At, IndexOf, Trim, TrimStart;
    if Marked(soul) {
      var start: int, end: int :| IsPair(soul, start, end);
      PairIsFound(soul, start, end);
    }
    if !Unmarked(soul) && Updated(soul, displayName, revision).Ok? {
      FirstPlace(soul, BEGIN);
      FirstPlace(soul, END);
      var start, end := IndexOf(soul, BEGIN, 0), IndexOf(soul, END, 0);
      PlaceShows(soul, BEGIN, start, 25);
      if end == start {
        PlaceShows(soul, END, end, 25);
      }
      assert IsPair(soul, start, end);
    }
  }

  lemma PairIsFound(soul: string, start: int, end: int)
    requires IsPair(soul, start, end)
    ensures IndexOf(soul, BEGIN, 0) == start && IndexOf(soul, END, 0) == end
    ensures |Places(soul, BEGIN)| == 1 && |Places(soul, END)| == 1
  {
    assert start in Places(soul, BEGIN) && end in Places(soul, END);
    FirstPlace(soul, BEGIN);
    FirstPlace(soul, END);
  }

  lemma PlaceShows(s: string, m: string, i: int, k: int)
    requires At(s, m, i) && 0 <= k < |m|
    ensures s[i + k] == m[k]
  {
    assert s[i + k] == s[i..i + |m|][k];
  }

  // ---------------------------------------------------------------------
  // Where markers can stand in a text around one block
  // ---------------------------------------------------------------------

  predicate Opening(s: string, i: int)
    requires 0 <= i <= |s| - 4
  {
    s[i] == '<' && s[i + 1] == '!' && s[i + 2] == '-' && s[i + 3] == '-'
  }

  /** Text in which no comment opens. */
  predicate NoOpening(s: string) {
    forall i :: 0 <= i <= |s| - 4 ==> !Opening(s, i)
  }

  /** A marker opens a comment and has no other angle bracket after that. */
  predicate MarkerLike(m: string) {
    |m| > 4 && Opening(m, 0) && forall i :: 0 < i < |m| ==> m[i] != '<'
  }

  lemma MarkersAreMarkerLike()
    ensures MarkerLike(BEGIN) && MarkerLike(END)
    ensures Distinctive(BEGIN) && Distinctive(END)
  {
    assert Opening(BEGIN, 0) && Opening(END, 0);
  }

  lemma MarkerShape(s: string, m: string, i: int)
    requires MarkerLike(m) && At(s, m, i)
    ensures Opening(s, i)
    ensures forall j :: i < j < i + |m| ==> s[j] != '<'
  {
    assert forall j :: i <= j < i + |m| ==> s[j] == m[j - i];
  }

  /** A marker placed in text followed by an angle bracket ends before it. */
  lemma PlaceBeforeBracket(a: string, b: string, m: string, i: int)
    requires MarkerLike(m) && b != [] && b[0] == '<'
    requires At(a + b, m, i) && i < |a|
    ensures At(a, m, i)
  {
    MarkerShape(a + b, m, i);
    assert (a + b)[|a|] == '<';
    assert (a + b)[i..i + |m|] == a[i..i + |m|];
  }

  lemma PlaceAfter(a: string, b: string, m: string, i: int)
    requires i >= |a|
    ensures At(a + b, m, i) <==> At(b, m, i - |a|)
  {
    if i + |m| <= |a + b| {
      assert (a + b)[i..i + |m|] == b[i - |a|..i - |a| + |m|];
    }
  }

  /** A marker cannot start inside another one. */
  lemma PlaceInMarker(b: string, rest: string, m: string, i: int)
    requires MarkerLike(m) && MarkerLike(b)
    requires At(b + rest, m, i) && i < |b|
    ensures i == 0
  {
    MarkerShape(b + rest, m, i);
    assert (b + rest)[i] == b[i];
  }

  lemma PlaceOpensComment(mid: string, m: string, i: int)
    requires MarkerLike(m) && At(mid, m, i)
    ensures !NoOpening(mid)
  {
    MarkerShape(mid, m, i);
  }

  lemma PlaceInLayout(pre: string, b: string, mid: string, e: string, post: string, m: string, i: int)
    requires MarkerLike(b) && MarkerLike(e) && MarkerLike(m) && NoOpening(mid)
    requires At(pre + (b + (mid + (e + post))), m, i)
    ensures
      || i == |pre|
      || i == |pre| + |b| + |mid|
      || At(pre, m, i)
      || At(post, m, i - (|pre| + |b| + |mid| + |e|))
  {
    var rest3 := e + post;
    var rest2 := mid + rest3;
    var rest1 := b + rest2;
    if i < |pre| {
      PlaceBeforeBracket(pre, rest1, m, i);
    } else {
      PlaceAfter(pre, rest1, m, i);
      var j := i - |pre|;
      if j < |b| {
        PlaceInMarker(b, rest2, m, j);
      } else {
        PlaceAfter(b, rest2, m, j);
        var k := j - |b|;
        if k < |mid| {
          PlaceBeforeBracket(mid, rest3, m, k);
          PlaceOpensComment(mid, m, k);
        } else {
          PlaceAfter(mid, rest3, m, k);
          var l := k - |mid|;
          if l < |e| {
            PlaceInMarker(e, post, m, l);
          } else {
            PlaceAfter(e, post, m, l);
          }
        }
      }
    }
  }

  // ---------------------------------------------------------------------
  // The laws
  // ---------------------------------------------------------------------

  lemma LiteralsOpenNothing()
    ensures forall i :: 0 <= i < |HEADING| ==> HEADING[i] != '<'
    ensures forall i :: 0 <= i < |ADVICE| ==> ADVICE[i] != '<'
    ensures forall i :: 0 <= i < |SCOPE| ==> SCOPE[i] != '<'
  {
  }

  lemma MiddleOpensNothing(name: string, revision: nat)
    requires PlainName(name)
    ensures NoOpening(Middle(name, revision))
  {
    hide Decimal;
    LiteralsOpenNothing();
    var s := Middle(name, revision);
    var h := |HEADING|;
    assert s[h + |name|] == CLOSING_QUOTE;
    forall i | 0 <= i <= |s| - 4
      ensures !Opening(s, i)
    {
      if h <= i <= h + |name| - 4 {
        assert !At(name, "<!--", i - h);
        assert s[i..i + 4] == name[i - h..i - h + 4];
      } else if h <= i < h + |name| {
        assert h + |name| < i + 4;
      } else {
        assert s[i] != '<';
      }
    }
  }

  /** Where the closing marker stands inside a block. */
  function EndWithin(name: string, revision: nat): nat {
    |IdentityBlock(name, revision)| - |END|
  }

  /** Two markers around a middle without comments are the only ones if the rest has none. */
  lemma PairIsAlone(pre: string, b: string, mid: string, e: string, post: string, m: string)
    requires MarkerLike(b) && MarkerLike(e) && NoOpening(mid)
    requires |b| > 25 && |e| > 25 && b[25] != e[25]
    requires m == b || m == e
    requires Places(pre, m) == {} && Places(post, m) == {}
    ensures Places(pre + (b + (mid + (e + post))), m) == {|pre| + if m == b then 0 else |b| + |mid|}
  {
    var whole := pre + (b + (mid + (e + post)));
    var p, q := |pre|, |pre| + |b| + |mid|;
    assert whole[p..p + |b|] == b;
    assert whole[q..q + |e|] == e;
    PlaceShows(whole, b, p, 25);
    PlaceShows(whole, e, q, 25);
    assert (if m == b then p else q) in Places(whole, m);
    forall i | i in Places(whole, m)
      ensures i == if m == b then p else q
    {
      PlaceInLayout(pre, b, mid, e, post, m, i);
      assert At(pre, m, i) ==> i in Places(pre, m);
      var k := i - (|pre| + |b| + |mid| + |e|);
      assert At(post, m, k) ==> k in Places(post, m);
      PlaceShows(whole, m, i, 25);
    }
  }

  /** A block written between texts without markers is the only pair of the result. */
  lemma OnePairAround(pre: string, name: string, revision: nat, post: string)
    requires PlainName(name) && Unmarked(pre) && Unmarked(post)
    ensures IsPair(pre + IdentityBlock(name, revision) + post, |pre|, |pre| + EndWithin(name, revision))
  {
    var mid := Middle(name, revision);
    MarkersAreMarkerLike();
    MiddleOpensNothing(name, revision);
    PairPlaces(pre, mid, post);
  }

  lemma PairPlaces(pre: string, mid: string, post: string)
    requires NoOpening(mid) && Unmarked(pre) && Unmarked(post)
    ensures IsPair(pre + (BEGIN + mid + END) + post, |pre|, |pre| + |BEGIN + mid|)
  {
    hide At, Opening, NoOpening, MarkerLike;
    MarkersAreMarkerLike();
    PairIsAlone(pre, BEGIN, mid, END, post, BEGIN);
    PairIsAlone(pre, BEGIN, mid, END, post, END);
    var whole := pre + (BEGIN + mid + END) + post;
    assert whole == pre + (BEGIN + (mid + (END + post)));
    assert |pre| in Places(whole, BEGIN) && |pre| + |BEGIN| + |mid| in Places(whole, END);
  }

  lemma PlacesInSlice(s: string, lo: int, hi: int, m: string)
    requires 0 <= lo <= hi <= |s|
    ensures forall i :: i in Places(s[lo..hi], m) ==> i + lo in Places(s, m) && i + lo + |m| <= hi
  {
    forall i | i in Places(s[lo..hi], m)
      ensures i + lo in Places(s, m) && i + lo + |m| <= hi
    {
      var t := s[lo..hi];
      assert At(t, m, i);
      var u := s[i + lo..i + lo + |m|];
      assert u == m by {
        assert forall k :: 0 <= k < |m| ==> u[k] == t[i + k] && m[k] == t[i..i + |m|][k];
      }
    }
  }

  lemma PairBounds(soul: string, start: int, end: int)
    requires IsPair(soul, start, end)
    ensures 0 <= start < end <= end + |END| <= |soul|
  {
  }

  lemma OutsideIsUnmarked(soul: string, start: int, end: int)
    requires IsPair(soul, start, end)
    ensures Unmarked(soul[..start]) && Unmarked(soul[end + |END|..])
  {
    PlacesInSlice(soul, 0, start, BEGIN);
    PlacesInSlice(soul, 0, start, END);
    PlacesInSlice(soul, end + |END|, |soul|, BEGIN);
    PlacesInSlice(soul, end + |END|, |soul|, END);
    assert soul[..start] == soul[0..start] && soul[end + |END|..] == soul[end + |END|..|soul|];
  }

  lemma NoPlaceAfterLines(text: string, m: string)
    requires MarkerLike(m) && Places(text, m) == {}
    ensures Places("\n\n" + text, m) == {}
  {
    var s := "\n\n" + text;
    forall i | i in Places(s, m)
      ensures i - 2 in Places(text, m)
    {
      assert At(s, m, i);
      MarkerShape(s, m, i);
      assert s[i] == '<';
      assert i >= 2;
      PlaceAfter("\n\n", text, m, i);
    }
  }

  lemma SpacedIsUnmarked(soul: string)
    requires Unmarked(soul)
    ensures Unmarked("\n\n" + TrimStart(soul)) && Unmarked("\n") && Unmarked("")
  {
    PlacesInSlice(soul, SpaceEnd(soul), |soul|, BEGIN);
    PlacesInSlice(soul, SpaceEnd(soul), |soul|, END);
    assert TrimStart(soul) == soul[SpaceEnd(soul)..|soul|];
    MarkersAreMarkerLike();
    NoPlaceAfterLines(TrimStart(soul), BEGIN);
    NoPlaceAfterLines(TrimStart(soul), END);
  }

  /** Replacing keeps every character around the pair and leaves exactly one pair. */
  lemma UpdateReplacesThePair(soul: string, start: int, end: int, name: string, revision: nat)
    requires IsPair(soul, start, end) && PlainName(name)
    ensures
      var r := Updated(soul, name, revision);
      && r.Ok?
      && r.value == soul[..start] + IdentityBlock(name, revision) + soul[end + |END|..]
      && IsPair(r.value, start, start + EndWithin(name, revision))
  {
    hide IdentityBlock, Middle, PlainName, At, EndWithin, Places, IndexOf, Trim, TrimStart;
    PairBounds(soul, start, end);
    PairIsFound(soul, start, end);
    OutsideIsUnmarked(soul, start, end);
    OnePairAround(soul[..start], name, revision, soul[end + |END|..]);
  }

  /** What follows the block in a text that had none: the user's text from its first visible character on. */
  function Remainder(soul: string): string {
    if Blank(soul) then "\n" else "\n\n" + TrimStart(soul)
  }

  lemma UpdateInsertsOnePair(soul: string, name: string, revision: nat)
    requires Unmarked(soul) && PlainName(name)
    ensures
      var r := Updated(soul, name, revision);
      && r == Ok(IdentityBlock(name, revision) + Remainder(soul))
      && IsPair(r.value, 0, EndWithin(name, revision))
  {
    SpacedIsUnmarked(soul);
    OnePairAround("", name, revision, Remainder(soul));
    Assembled(soul, IdentityBlock(name, revision));
  }

  lemma Assembled(soul: string, block: string)
    ensures "" + block + Remainder(soul) == block + Remainder(soul)
    ensures !Blank(soul) ==> block + "\n\n" + TrimStart(soul) == block + Remainder(soul)
  {
  }

  lemma Around(pre: string, block: string, post: string)
    ensures (pre + block + post)[..|pre|] == pre
    ensures (pre + block + post)[|pre| + |block|..] == post
  {
  }

  lemma Rewritten(pre: string, name: string, revision: nat, post: string, name': string, revision': nat)
    requires PlainName(name')
    requires IsPair(pre + IdentityBlock(name, revision) + post, |pre|, |pre| + EndWithin(name, revision))
    ensures Updated(pre + IdentityBlock(name, revision) + post, name', revision')
      == Ok(pre + IdentityBlock(name', revision') + post)
  {
    hide IdentityBlock, PlainName, Updated, IsPair;
    var once := pre + IdentityBlock(name, revision) + post;
    UpdateReplacesThePair(once, |pre|, |pre| + EndWithin(name, revision), name', revision');
    Around(pre, IdentityBlock(name, revision), post);
  }

  lemma UpdateTwiceOfUnmarked(soul: string, name: string, revision: nat, name': string, revision': nat)
    requires Unmarked(soul) && PlainName(name) && PlainName(name')
    ensures Updated(soul, name, revision).Ok?
    ensures Updated(Updated(soul, name, revision).value, name', revision') == Updated(soul, name', revision')
  {
    var post := Remainder(soul);
    UpdateInsertsOnePair(soul, name, revision);
    UpdateInsertsOnePair(soul, name', revision');
    Front(IdentityBlock(name, revision), post);
    Front(IdentityBlock(name', revision'), post);
    Rewritten("", name, revision, post, name', revision');
  }

  lemma Front(block: string, post: string)
    ensures "" + block + post == block + post
  {
  }

  lemma UpdateTwiceOfMarked(soul: string, name: string, revision: nat, name': string, revision': nat)
    requires Marked(soul) && PlainName(name) && PlainName(name')
    ensures Updated(soul, name, revision).Ok?
    ensures Updated(Updated(soul, name, revision).value, name', revision') == Updated(soul, name', revision')
  {
    hide IdentityBlock, PlainName, At, EndWithin, Places, IndexOf, Updated;
    var start: int, end: int :| IsPair(soul, start, end);
    PairBounds(soul, start, end);
    UpdateReplacesThePair(soul, start, end, name, revision);
    UpdateReplacesThePair(soul, start, end, name', revision');
    Rewritten(soul[..start], name, revision, soul[end + |END|..], name', revision');
  }

  /** Updating twice is updating once with the second name and revision. */
  lemma UpdateTwiceIsOnce(soul: string, name: string, revision: nat, name': string, revision': nat)
    requires Accepted(soul) && PlainName(name) && PlainName(name')
    ensures Updated(soul, name, revision).Ok?
    ensures Updated(Updated(soul, name, revision).value, name', revision') == Updated(soul, name', revision')
  {
    if Unmarked(soul) {
      UpdateTwiceOfUnmarked(soul, name, revision, name', revision');
    } else {
      UpdateTwiceOfMarked(soul, name, revision, name', revision');
    }
  }

  /**
   * Undoing a rename on a text without a block gives back the very text; on a
   * text with one, only the block differs, and it names the restored name.
   */
  lemma RestoreKeepsTheRest(soul: string, name: string, revision: nat)
    requires Accepted(soul) && PlainName(name) && name != ""
    ensures Unmarked(soul) ==> Restored(Some(soul), name, revision) == Ok(Some(soul))
    ensures Marked(soul) ==>
      exists start: int, end: int {:trigger IsPair(soul, start, end)} ::
        && IsPair(soul, start, end)
        && Restored(Some(soul), name, revision)
          == Ok(Some(soul[..start] + IdentityBlock(name, revision) + soul[end + |END|..]))
  {
    if Marked(soul) {
      var start: int, end: int :| IsPair(soul, start, end);
      PairIsFound(soul, start, end);
      UpdateReplacesThePair(soul, start, end, name, revision);
    }
  }
}
