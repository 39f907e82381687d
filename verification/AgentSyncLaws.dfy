/** What one sync pass does to each part of a pair, and when both sides agree. */
module AgentSyncLaws {
  import opened AgentSync
  import opened Wrappers

  /** Both sides are read with "auto" standing in for a missing provider. */
  predicate Readable(pair: Pair) {
    pair.local.provider != "" && pair.remote.provider != ""
  }

  function LocalOf(pair: Pair, part: Part): Hash {
    HashPart(part, pair.local)
  }

  function RemoteOf(pair: Pair, part: Part): Hash {
    HashPart(part, pair.remote)
  }

  lemma SameParts(a: PartValues, b: PartValues)
    requires forall p :: HashPart(p, a) == HashPart(p, b)
    ensures a == b
  {
    assert HashPart(Color, a) == HashPart(Color, b);
    assert HashPart(Soul, a) == HashPart(Soul, b);
    assert HashPart(Config, a) == HashPart(Config, b);
  }

  lemma AllParts(part: Part)
    ensures part in PARTS
  {
    assert PARTS[0] == Color && PARTS[1] == Soul && PARTS[2] == Config;
    match part
    case Color =>
    case Soul =>
    case Config =>
  }

  // ---------------------------------------------------------------------
  // One pass, part by part
  // ---------------------------------------------------------------------

  /** What the pass takes for the local value of a part. */
  function SeenOf(pair: Pair, w: Weather, part: Part): Hash {
    HashPart(part, SeenLocal(pair.local, w))
  }

  function SeenBaseOf(pair: Pair, w: Weather, part: Part): Option<Hash> {
    BaseOf(SeenBase(pair.base, w), part)
  }

  /** The pass was not ended by a configuration that could not be read. */
  predicate Runs(w: Weather) {
    !w.read.config.ConfigThrows?
  }

  /** The part and the sync state were read as they are. */
  predicate ReadsPart(w: Weather, part: Part) {
    && w.read.state
    && match part
       case Color => w.read.color.None?
       case Soul => w.read.soul
       case Config => !w.read.config.ConfigTaken?
  }

  lemma SeenAsIs(pair: Pair, w: Weather, part: Part)
    requires ReadsPart(w, part)
    ensures SeenOf(pair, w, part) == LocalOf(pair, part) && SeenBaseOf(pair, w, part) == BaseOf(pair.base, part)
  {
  }

  /** The cloud applied this pass's push of the part. */
  predicate PushTakes(pair: Pair, w: Weather, part: Part) {
    && Runs(w)
    && ActionFor(pair, w, part) == Push
    && !IsPartSkipped(part, SeenLocal(pair.local, w))
    && (w.push.Accepted? || w.push == Unreachable(true))
  }

  /** A part changes in the cloud exactly if its push took effect, and then to what the pass had read. */
  lemma RemoteAfter(pair: Pair, w: Weather, part: Part)
    requires Readable(pair)
    ensures RemoteOf(Reconcile(pair, w), part) == if PushTakes(pair, w, part) then SeenOf(pair, w, part) else RemoteOf(pair, part)
    ensures Reconcile(pair, w).remote.provider != ""
  {
    var seen := SeenLocal(pair.local, w);
    var parts := WithAction(pair, w, Push, PARTS);
    var body := BodyFrom(parts, seen);
    AllParts(part);
    PatchedParts(pair.remote, parts, seen, part);
    ProviderStays(pair.remote, parts, seen);
    if body == EMPTY {
      assert Patched(pair.remote, body) == pair.remote;
    }
  }

  lemma {:induction false} ProviderStays(remote: PartValues, parts: seq<Part>, values: PartValues)
    requires remote.provider != "" && values.provider != ""
    ensures Patched(remote, BodyFrom(parts, values)).provider != ""
  {
    if parts != [] {
      ProviderStays(remote, parts[..|parts| - 1], values);
    }
  }

  lemma {:induction false} BodyIsEmpty(parts: seq<Part>, values: PartValues)
    ensures BodyFrom(parts, values) == EMPTY <==> forall p :: p in parts ==> IsPartSkipped(p, values)
  {
    if parts != [] {
      var rest, last := parts[..|parts| - 1], parts[|parts| - 1];
      assert parts == rest + [last];
      assert last in parts;
      BodyIsEmpty(rest, values);
      assert AddPart(BodyFrom(rest, values), last, values) == EMPTY
        <==> BodyFrom(rest, values) == EMPTY && IsPartSkipped(last, values);
    }
  }

  /** Everything before the pulls went through: there was nothing to push, or the push had an answer. */
  predicate PushReturns(pair: Pair, w: Weather) {
    Runs(w) && (BodyOf(pair, w) == EMPTY || !w.push.Unreachable?)
  }

  /** This pass's pull of the part reached the local files. */
  predicate PullTakes(pair: Pair, w: Weather, part: Part) {
    ActionFor(pair, w, part) == Pull && PushReturns(pair, w) && Reaches(PullOutcome(part, pair.remote, w))
  }

  predicate ConfigLast(parts: seq<Part>) {
    forall i :: 0 <= i < |parts| && parts[i] == Config ==> i == |parts| - 1
  }

  lemma {:induction false} WithActionKeepsConfigLast(pair: Pair, w: Weather, action: Action, parts: seq<Part>)
    requires ConfigLast(parts)
    ensures ConfigLast(WithAction(pair, w, action, parts))
  {
    hide ActionFor;
    if parts != [] {
      var rest := parts[1..];
      assert forall i :: 0 <= i < |rest| ==> rest[i] == parts[i + 1];
      WithActionKeepsConfigLast(pair, w, action, rest);
      assert parts[0] == Config ==> rest == [];
      var r := WithAction(pair, w, action, rest);
      assert forall i :: 0 < i < |r| + 1 ==> ([parts[0]] + r)[i] == r[i - 1];
    }
  }

  /** Only the configuration can throw, and it comes last: every pull is tried. */
  lemma {:induction false} PulledParts(local: PartValues, parts: seq<Part>, remote: PartValues, w: Weather, part: Part)
    requires ConfigLast(parts)
    ensures
      var r := PullAll(local, parts, remote, w);
      && HashPart(part, r.0)
        == HashPart(part, if part in parts && Reaches(PullOutcome(part, remote, w)) then remote else local)
      && (r.1 <==> Config !in parts || !PullOutcome(Config, remote, w).Throws?)
      && (local.provider != "" && remote.provider != "" ==> r.0.provider != "")
    decreases |parts|
  {
    if parts != [] {
      var rest := parts[1..];
      assert forall i :: 0 <= i < |rest| ==> rest[i] == parts[i + 1];
      assert parts == [parts[0]] + rest;
      assert parts[0] == Config ==> rest == [];
      PulledParts(PullPart(local, parts[0], remote, w), rest, remote, w, part);
    }
  }

  /** The pass reached its end and recorded the new base. */
  predicate Completes(pair: Pair, w: Weather) {
    && PushReturns(pair, w)
    && (ActionFor(pair, w, Config) == Pull ==> !PullOutcome(Config, pair.remote, w).Throws?)
    && w.stateWritten
  }

  lemma PullsOfPass(pair: Pair, w: Weather, part: Part)
    ensures
      var r := PullAll(pair.local, WithAction(pair, w, Pull, PARTS), pair.remote, w);
      && HashPart(part, r.0)
        == HashPart(part, if ActionFor(pair, w, part) == Pull && Reaches(PullOutcome(part, pair.remote, w))
                          then pair.remote else pair.local)
      && (r.1 <==> ActionFor(pair, w, Config) != Pull || !PullOutcome(Config, pair.remote, w).Throws?)
      && (Readable(pair) ==> r.0.provider != "")
  {
    AllParts(part);
    AllParts(Config);
    WithActionKeepsConfigLast(pair, w, Pull, PARTS);
    PulledParts(pair.local, WithAction(pair, w, Pull, PARTS), pair.remote, w, part);
  }

  /** A part changes on the local side exactly if its pull was applied. */
  lemma LocalAfter(pair: Pair, w: Weather, part: Part)
    ensures LocalOf(Reconcile(pair, w), part) == if PullTakes(pair, w, part) then RemoteOf(pair, part) else LocalOf(pair, part)
    ensures Readable(pair) ==> Reconcile(pair, w).local.provider != ""
  {
    PullsOfPass(pair, w, part);
  }

  lemma {:induction false} BasesFromKeeps(parts: seq<Part>, pair: Pair, w: Weather, pushedOk: bool, part: Part)
    ensures BaseOf(BasesFrom(parts, pair, w, pushedOk), part)
      == if part in parts then BaseOf(NextBase(SeenBase(pair.base, w), part, pair, w, pushedOk), part)
         else SeenBaseOf(pair, w, part)
  {
    hide ActionFor, HashPart, IsPartSkipped, SeenLocal, SeenBase;
    if parts != [] {
      var rest, last := parts[..|parts| - 1], parts[|parts| - 1];
      assert parts == rest + [last];
      BasesFromKeeps(rest, pair, w, pushedOk, part);
    }
  }

  /** What a pass that records leaves as the base of a part. */
  function Recorded(pair: Pair, w: Weather, part: Part): Option<Hash> {
    match ActionFor(pair, w, part)
    case Pull => Some(RemoteOf(pair, part))
    case Push => if PushTakes(pair, w, part) then Some(SeenOf(pair, w, part)) else SeenBaseOf(pair, w, part)
    case Stay => Some(SeenOf(pair, w, part))
  }

  lemma BaseAfter(pair: Pair, w: Weather, part: Part)
    ensures BaseOf(Reconcile(pair, w).base, part)
      == if Completes(pair, w) then Recorded(pair, w, part) else BaseOf(pair.base, part)
  {
    hide PullAll;
    AllParts(part);
    var parts := WithAction(pair, w, Push, PARTS);
    PullsOfPass(pair, w, part);
    BodyIsEmpty(parts, SeenLocal(pair.local, w));
    BasesFromKeeps(PARTS, pair, w, BodyOf(pair, w) == EMPTY || w.push.Accepted?, part);
  }

  // ---------------------------------------------------------------------
  // Convergence
  // ---------------------------------------------------------------------

  /** Whatever was to be done about the part was done. */
  predicate Taken(pair: Pair, w: Weather, part: Part) {
    match ActionFor(pair, w, part)
    case Stay => true
    case Push => PushTakes(pair, w, part)
    case Pull => PullTakes(pair, w, part)
  }

  /** The pull took effect; or the push did, of what is on disk; or neither, and both sides were equal anyway. */
  predicate Converges(pair: Pair, w: Weather, part: Part) {
    if PullTakes(pair, w, part) then true
    else if PushTakes(pair, w, part) then SeenOf(pair, w, part) == LocalOf(pair, part)
    else LocalOf(pair, part) == RemoteOf(pair, part)
  }

  /**
   * Whatever a pass meets and reads, it makes both sides equal exactly when every
   * part converges; a part that was read as it is does if its push or pull took effect.
   */
  lemma ConvergesExactly(pair: Pair, w: Weather)
    requires Readable(pair)
    ensures Reconcile(pair, w).local == Reconcile(pair, w).remote <==> forall p :: Converges(pair, w, p)
    ensures Runs(w) ==> forall p :: ReadsPart(w, p) ==> (Converges(pair, w, p) <==> Taken(pair, w, p))
  {
    var after := Reconcile(pair, w);
    forall p
      ensures LocalOf(after, p) == RemoteOf(after, p) <==> Converges(pair, w, p)
      ensures Runs(w) && ReadsPart(w, p) ==> (Converges(pair, w, p) <==> Taken(pair, w, p))
    {
      LocalAfter(pair, w, p);
      RemoteAfter(pair, w, p);
      if ReadsPart(w, p) {
        SeenAsIs(pair, w, p);
      }
    }
    if forall p :: Converges(pair, w, p) {
      assert forall p :: LocalOf(after, p) == HashPart(p, after.local) && RemoteOf(after, p) == HashPart(p, after.remote);
      SameParts(after.local, after.remote);
    }
  }

  /** Who should win: the side that left the base, and of two that did the later one. */
  function Winner(pair: Pair, w: Weather, part: Part): Hash {
    var base := BaseOf(pair.base, part);
    if base == Some(LocalOf(pair, part)) then RemoteOf(pair, part)
    else if base == Some(RemoteOf(pair, part)) then LocalOf(pair, part)
    else if Mtime(w, part) > w.remoteMs then LocalOf(pair, part)
    else RemoteOf(pair, part)
  }

  /**
   * The winner ends on both sides exactly if it was the cloud's value and pulled,
   * or the local one and read and pushed, or there already. Of a part that was read
   * as it is, that is if its push or pull took effect, and a completed pass records it.
   */
  lemma TheEditedSideWins(pair: Pair, w: Weather, part: Part)
    requires Readable(pair)
    ensures
      var after := Reconcile(pair, w);
      var wins := LocalOf(after, part) == RemoteOf(after, part) == Winner(pair, w, part);
      && (wins <==>
            if PullTakes(pair, w, part) then Winner(pair, w, part) == RemoteOf(pair, part)
            else if PushTakes(pair, w, part) then SeenOf(pair, w, part) == LocalOf(pair, part) == Winner(pair, w, part)
            else LocalOf(pair, part) == RemoteOf(pair, part))
      && (Runs(w) && ReadsPart(w, part) ==> (wins <==> Taken(pair, w, part)))
      && (Completes(pair, w) && ReadsPart(w, part) && wins ==> BaseOf(after.base, part) == Some(Winner(pair, w, part)))
  {
    LocalAfter(pair, w, part);
    RemoteAfter(pair, w, part);
    BaseAfter(pair, w, part);
    if ReadsPart(w, part) {
      SeenAsIs(pair, w, part);
    }
  }

  // ---------------------------------------------------------------------
  // Quiet pairs
  // ---------------------------------------------------------------------

  predicate Settled(pair: Pair, part: Part) {
    LocalOf(pair, part) == RemoteOf(pair, part) && BaseOf(pair.base, part) == Some(LocalOf(pair, part))
  }

  /** A difference no pass will touch: the local part cannot be pushed and the cloud's is the base. */
  predicate Unpushable(pair: Pair, part: Part) {
    && LocalOf(pair, part) != RemoteOf(pair, part)
    && BaseOf(pair.base, part) == Some(RemoteOf(pair, part))
    && IsPartSkipped(part, pair.local)
  }

  /** Every file was read as it is. */
  predicate ReadsAll(w: Weather) {
    w.read == Reads(None, true, ConfigAsIs, true)
  }

  /** The passes that read every file change nothing, whatever else they meet, exactly if each part is settled or cannot be pushed. */
  lemma QuietExactly(pair: Pair)
    requires Readable(pair)
    ensures (forall w :: ReadsAll(w) ==> Reconcile(pair, w) == pair) <==> forall p :: Settled(pair, p) || Unpushable(pair, p)
  {
    if forall p :: Settled(pair, p) || Unpushable(pair, p) {
      forall w | ReadsAll(w)
        ensures Reconcile(pair, w) == pair
      {
        NothingToDo(pair, w);
      }
    }
    if p :| !Settled(pair, p) && !Unpushable(pair, p) {
      var w := Disturbing(pair, p);
      UnsettledPartMoves(pair, w, p);
      assert ReadsAll(w) && Reconcile(pair, w) != pair;
    }
  }

  /** Whether a part is skipped depends on that part alone. */
  lemma SkippedByHash(part: Part, a: PartValues, b: PartValues)
    requires HashPart(part, a) == HashPart(part, b)
    ensures IsPartSkipped(part, a) == IsPartSkipped(part, b)
  {
    match part
    case Color =>
    case Soul => assert SoulHash(a.soul) == SoulHash(b.soul);
    case Config => assert ConfigHash(a.model, a.provider) == ConfigHash(b.model, b.provider);
  }

  const ALL_WRITTEN: map<Part, WriteFate> := map[Color := Written, Soul := Written, Config := Written]

  /** A pass where everything works, and the cloud's side is the later one. */
  function Disturbing(pair: Pair, part: Part): Weather {
    Weather(Reads(None, true, ConfigAsIs, true), map[part := 0], 0, Accepted, ALL_WRITTEN, true)
  }

  lemma UnsettledPartMoves(pair: Pair, w: Weather, part: Part)
    requires Readable(pair) && !Settled(pair, part) && !Unpushable(pair, part) && w == Disturbing(pair, part)
    ensures Reconcile(pair, w) != pair
  {
    assert Completes(pair, w);
    RemoteAfter(pair, w, part);
    BaseAfter(pair, w, part);
  }

  lemma NothingToDo(pair: Pair, w: Weather)
    requires ReadsAll(w) && forall p :: Settled(pair, p) || Unpushable(pair, p)
    ensures Reconcile(pair, w) == pair
  {
    assert SeenLocal(pair.local, w) == pair.local && SeenBase(pair.base, w) == pair.base;
    forall p
      ensures ActionFor(pair, w, p) != Pull
      ensures ActionFor(pair, w, p) == Push ==> IsPartSkipped(p, pair.local)
    {
      assert Settled(pair, p) || Unpushable(pair, p);
    }
    BodyIsEmpty(WithAction(pair, w, Push, PARTS), pair.local);
    NoPartActs(pair, w, Pull, PARTS);
    forall p
      ensures BaseOf(BasesFrom(PARTS, pair, w, true), p) == BaseOf(pair.base, p)
    {
      assert Settled(pair, p) || Unpushable(pair, p);
      AllParts(p);
      BasesFromKeeps(PARTS, pair, w, true, p);
    }
    SameBase(BasesFrom(PARTS, pair, w, true), pair.base);
  }

  lemma {:induction false} NoPartActs(pair: Pair, w: Weather, action: Action, parts: seq<Part>)
    requires forall p :: ActionFor(pair, w, p) != action
    ensures WithAction(pair, w, action, parts) == []
  {
    if parts != [] {
      NoPartActs(pair, w, action, parts[1..]);
    }
  }

  lemma SameBase(a: Base, b: Base)
    requires forall p :: BaseOf(a, p) == BaseOf(b, p)
    ensures a == b
  {
    assert forall p :: p in a <==> BaseOf(a, p).Some?;
    assert forall p :: p in b <==> BaseOf(b, p).Some?;
    assert forall p :: p in a ==> BaseOf(a, p) == Some(a[p]) && BaseOf(b, p) == Some(b[p]);
  }

  /** What a pass has to do to a part so that no later one touches it: agree on it, or leave a difference that cannot be pushed. */
  predicate LeavesAtRest(pair: Pair, w: Weather, part: Part) {
    var unpushable := IsPartSkipped(part, pair.local);
    match ActionFor(pair, w, part)
    case Stay => SeenOf(pair, w, part) == LocalOf(pair, part) || unpushable
    case Pull => PullTakes(pair, w, part) || LocalOf(pair, part) == RemoteOf(pair, part) || unpushable
    case Push =>
      if PushTakes(pair, w, part) then SeenOf(pair, w, part) == LocalOf(pair, part) || unpushable
      else
        && SeenBaseOf(pair, w, part) == Some(RemoteOf(pair, part))
        && (LocalOf(pair, part) == RemoteOf(pair, part) || unpushable)
  }

  /** After a completed pass, whatever it read, none that reads every file changes anything, exactly if it left every part at rest. */
  lemma SecondPassDoesNothing(pair: Pair, w: Weather)
    requires Readable(pair) && Completes(pair, w)
    ensures
      var after := Reconcile(pair, w);
      (forall w' :: ReadsAll(w') ==> Reconcile(after, w') == after) <==> forall p :: LeavesAtRest(pair, w, p)
  {
    var after := Reconcile(pair, w);
    forall p
      ensures LeavesAtRest(pair, w, p) <==> Settled(after, p) || Unpushable(after, p)
    {
      LocalAfter(pair, w, p);
      RemoteAfter(pair, w, p);
      BaseAfter(pair, w, p);
      if !PullTakes(pair, w, p) {
        SkippedByHash(p, pair.local, after.local);
      }
    }
    LocalAfter(pair, w, Color);
    RemoteAfter(pair, w, Color);
    QuietExactly(after);
    assert (forall p :: LeavesAtRest(pair, w, p)) <==> forall p :: Settled(after, p) || Unpushable(after, p);
  }

  /** No pair is safe from a pass that cannot read the metadata: the default color may go to the cloud. */
  lemma FailedReadDisturbs(pair: Pair, w: Weather, default: string)
    requires Readable(pair) && default != pair.remote.color && BaseOf(pair.base, Color) != Some(ColorHash(default))
    requires w == Disturbing(pair, Color).(read := Reads(Some(default), true, ConfigAsIs, true), localMs := map[Color := 1])
    ensures Reconcile(pair, w).remote.color == default
  {
    RemoteAfter(pair, w, Color);
    assert PushTakes(pair, w, Color);
  }

  // ---------------------------------------------------------------------
  // Failures
  // ---------------------------------------------------------------------

  /**
   * A push that was skipped, refused, or never reached the backend leaves its part
   * as it was on both sides, and in the base unless that could not be read; so a
   * local edit is still to be pushed.
   */
  lemma UnpushedStaysPending(pair: Pair, w: Weather, w': Weather, part: Part)
    requires Readable(pair) && ActionFor(pair, w, part) == Push && !PushTakes(pair, w, part)
    ensures
      var after := Reconcile(pair, w);
      && LocalOf(after, part) == LocalOf(pair, part)
      && RemoteOf(after, part) == RemoteOf(pair, part)
      && BaseOf(after.base, part) == (if Completes(pair, w) && !w.read.state then None else BaseOf(pair.base, part))
      && (BaseOf(after.base, part) == Some(RemoteOf(after, part)) != Some(LocalOf(after, part)) ==>
            ReadsPart(w', part) ==> ActionFor(after, w', part) == Push)
  {
    LocalAfter(pair, w, part);
    RemoteAfter(pair, w, part);
    BaseAfter(pair, w, part);
    if ReadsPart(w', part) {
      SeenAsIs(Reconcile(pair, w), w', part);
    }
  }

  // ---------------------------------------------------------------------
  // Which colors can be pulled
  // ---------------------------------------------------------------------

  const LOWER_DIGITS := "0123456789abcdef"
  const UPPER_DIGITS := "0123456789ABCDEF"

  /** A hash sign and six digits of base sixteen, in either case. */
  ghost predicate Spells(s: string, digits: seq<nat>) {
    && |digits| == 6 && |s| == 7 && s[0] == '#'
    && forall i :: 0 <= i < 6 ==> digits[i] < 16 && (s[i + 1] == LOWER_DIGITS[digits[i]] || s[i + 1] == UPPER_DIGITS[digits[i]])
  }

  function DigitOf(c: char): nat
    requires IsHexDigit(c)
  {
    if c <= '9' then (c - '0') as nat else if c <= 'F' then (c - 'A') as nat + 10 else (c - 'a') as nat + 10
  }

  lemma DigitIsSpelled(c: char)
    requires IsHexDigit(c)
    ensures DigitOf(c) < 16 && (c == LOWER_DIGITS[DigitOf(c)] || c == UPPER_DIGITS[DigitOf(c)])
  {
  }

  lemma SpelledIsDigit(d: nat)
    requires d < 16
    ensures IsHexDigit(LOWER_DIGITS[d]) && IsHexDigit(UPPER_DIGITS[d])
  {
  }

  /** A color pull is applied exactly if the cloud's color spells six hexadecimal digits and the write works; otherwise it is lost. */
  lemma ColorIsPulledExactly(remote: PartValues, w: Weather)
    ensures PullOutcome(Color, remote, w) == Applied <==>
      (exists digits :: Spells(remote.color, digits)) && WriteOf(w, Color) != NotWritten
    ensures PullOutcome(Color, remote, w) in {Applied, Lost}
  {
    var s := remote.color;
    if IsHexColor(s) {
      var digits := seq(6, i requires 0 <= i < 6 => DigitOf(s[i + 1]));
      forall i | 0 <= i < 6
        ensures digits[i] < 16 && (s[i + 1] == LOWER_DIGITS[digits[i]] || s[i + 1] == UPPER_DIGITS[digits[i]])
      {
        DigitIsSpelled(s[i + 1]);
      }
      assert Spells(s, digits);
    }
    forall digits | Spells(s, digits)
      ensures IsHexColor(s)
    {
      forall i | 1 <= i < 7
        ensures IsHexDigit(s[i])
      {
        SpelledIsDigit(digits[i - 1]);
        assert s[i - 1 + 1] == LOWER_DIGITS[digits[i - 1]] || s[i - 1 + 1] == UPPER_DIGITS[digits[i - 1]];
      }
    }
  }
}
