/**
 * Three-way sync of one linked pair: a local profile, its cloud agent, and the
 * content hashes both had at the last sync.
 */
module AgentSync {
  import opened Wrappers

  datatype Part = Color | Soul | Config

  const PARTS: seq<Part> := [Color, Soul, Config]
  const MAX_SOUL_CHARS := 20000

  datatype PartValues = PartValues(color: string, soul: string, model: string, provider: string)

  /** A collision-free stand-in for the content hash of a part. */
  datatype Hash = ColorHash(color: string) | SoulHash(soul: string) | ConfigHash(model: string, provider: string)

  datatype Action = Stay | Push | Pull

  type Base = map<Part, Hash>

  /** Both sides of a link and the recorded common ground. */
  datatype Pair = Pair(local: PartValues, remote: PartValues, base: Base)

  function HashPart(part: Part, values: PartValues): Hash {
    match part
    case Color => ColorHash(values.color)
    case Soul => SoulHash(values.soul)
    case Config => ConfigHash(values.model, values.provider)
  }

  function BaseOf(base: Base, part: Part): Option<Hash> {
    if part in base then Some(base[part]) else None
  }

  function DecidePartAction(base: Option<Hash>, local: Hash, remote: Hash, localMs: int, remoteMs: int): Action {
    if local == remote then Stay
    else if base == Some(local) then Pull
    else if base == Some(remote) then Push
    else if localMs > remoteMs then Push
    else Pull
  }

  // ---------------------------------------------------------------------
  // Pushing
  // ---------------------------------------------------------------------

  /** The length of a text in 16-bit units, which is what the limit counts. */
  function Units(s: string): nat {
    if s == [] then 0 else (if s[0] > '\U{FFFF}' then 2 else 1) + Units(s[1..])
  }

  /** A part the cloud would refuse or lose. */
  predicate IsPartSkipped(part: Part, values: PartValues) {
    match part
    case Color => false
    case Soul => Units(values.soul) > MAX_SOUL_CHARS
    case Config => values.model == ""
  }

  /** The fields of a PATCH; an empty persona travels as null. */
  datatype Body = Body(color: Option<string>, systemPrompt: Option<Option<string>>, config: Option<(string, string)>)

  const EMPTY := Body(None, None, None)

  function AddPart(body: Body, part: Part, values: PartValues): Body {
    match part
    case Color => body.(color := Some(values.color))
    case Soul =>
      if Units(values.soul) > MAX_SOUL_CHARS then body
      else body.(systemPrompt := Some(if values.soul == "" then None else Some(values.soul)))
    case Config =>
      if values.model == "" then body
      else body.(config := Some((values.model, if values.provider == "" then "auto" else values.provider)))
  }

  /** The cloud side after an accepted body, read back through the agent's defaults. */
  function Patched(remote: PartValues, body: Body): PartValues {
    PartValues(
      if body.color.Some? then body.color.value else remote.color,
      if body.systemPrompt.Some? then
        (if body.systemPrompt.value.Some? then body.systemPrompt.value.value else "")
      else remote.soul,
      if body.config.Some? then body.config.value.0 else remote.model,
      if body.config.Some? then body.config.value.1 else remote.provider)
  }

  function BodyFrom(parts: seq<Part>, values: PartValues): Body {
    if parts == [] then EMPTY else AddPart(BodyFrom(parts[..|parts| - 1], values), parts[|parts| - 1], values)
  }

  method BuildPushBody(parts: seq<Part>, values: PartValues) returns (body: Body, skipped: seq<Part>)
    ensures body == BodyFrom(parts, values)
    ensures forall p :: p in skipped <==> p in parts && IsPartSkipped(p, values)
    ensures body == EMPTY <==> forall p :: p in parts ==> IsPartSkipped(p, values)
  {
    body, skipped := EMPTY, [];
    for i := 0 to |parts|
      invariant body == BodyFrom(parts[..i], values)
      invariant forall p :: p in skipped <==> p in parts[..i] && IsPartSkipped(p, values)
      invariant body == EMPTY <==> forall p :: p in parts[..i] ==> IsPartSkipped(p, values)
    {
      assert parts[..i + 1] == parts[..i] + [parts[i]];
      body := AddPart(body, parts[i], values);
      if IsPartSkipped(parts[i], values) {
        skipped := skipped + [parts[i]];
      }
    }
    assert parts[..|parts|] == parts;
  }

  /** An accepted body makes exactly the pushed, unskipped parts equal on both sides. */
  lemma {:induction false} PatchedParts(remote: PartValues, parts: seq<Part>, values: PartValues, part: Part)
    requires values.provider != ""
    ensures HashPart(part, Patched(remote, BodyFrom(parts, values)))
      == HashPart(part, if part in parts && !IsPartSkipped(part, values) then values else remote)
  {
    if parts != [] {
      var rest, last := parts[..|parts| - 1], parts[|parts| - 1];
      assert parts == rest + [last];
      PatchedParts(remote, rest, values, part);
    }
  }

  // ---------------------------------------------------------------------
  // One pass over a pair
  // ---------------------------------------------------------------------

  /** What becomes of the PATCH: an unreachable backend may or may not have applied it. */
  datatype PushFate = Accepted | Refused | Unreachable(applied: bool)

  /** A file whose stat fails reads as unset, and a cached reading may be an older one: other values are taken. */
  datatype ConfigRead = ConfigAsIs | ConfigTaken(model: string, provider: string) | ConfigThrows

  /**
   * How the local files are read. Unreadable metadata gives the profile's default
   * color, an unreadable persona an empty one, and an unreadable sync state a link
   * by name without a base.
   */
  datatype Reads = Reads(color: Option<string>, soul: bool, config: ConfigRead, state: bool)

  /** A write that throws may have replaced the file before. */
  datatype WriteFate = Written | NotWritten | WrittenThenThrew

  /**
   * Everything a pass meets: the local reads, clocks, the push, the local writes of
   * pulled parts, the state file.
   */
  datatype Weather = Weather(
    read: Reads,
    localMs: map<Part, int>,
    remoteMs: int,
    push: PushFate,
    written: map<Part, WriteFate>,
    stateWritten: bool)

  function WriteOf(w: Weather, part: Part): WriteFate {
    if part in w.written then w.written[part] else NotWritten
  }

  /** What the pass takes for the local side. */
  function SeenLocal(local: PartValues, w: Weather): PartValues {
    PartValues(
      if w.read.color.Some? then w.read.color.value else local.color,
      if w.read.soul then local.soul else "",
      if w.read.config.ConfigTaken? then w.read.config.model else local.model,
      if !w.read.config.ConfigTaken? then local.provider
      else if w.read.config.provider == "" then "auto"
      else w.read.config.provider)
  }

  function SeenBase(base: Base, w: Weather): Base {
    if w.read.state then base else map[]
  }

  function Mtime(w: Weather, part: Part): int {
    if part in w.localMs then w.localMs[part] else 0
  }

  function ActionFor(pair: Pair, w: Weather, part: Part): Action {
    DecidePartAction(
      BaseOf(SeenBase(pair.base, w), part), HashPart(part, SeenLocal(pair.local, w)), HashPart(part, pair.remote),
      Mtime(w, part), w.remoteMs)
  }

  function WithAction(pair: Pair, w: Weather, action: Action, parts: seq<Part>): (r: seq<Part>)
    ensures forall p :: p in r <==> p in parts && ActionFor(pair, w, p) == action
  {
    if parts == [] then []
    else if ActionFor(pair, w, parts[0]) == action then [parts[0]] + WithAction(pair, w, action, parts[1..])
    else WithAction(pair, w, action, parts[1..])
  }

  predicate IsHexDigit(c: char) {
    '0' <= c <= '9' || 'a' <= c <= 'f' || 'A' <= c <= 'F'
  }

  predicate IsHexColor(s: string) {
    |s| == 7 && s[0] == '#' && forall i :: 1 <= i < 7 ==> IsHexDigit(s[i])
  }

  /** A pull is applied, or given up without anybody noticing, or it throws, perhaps after it was applied. */
  datatype PullFate = Applied | Lost | Throws(applied: bool)

  /**
   * Only a model configuration write is looked at: a color or persona that is
   * refused or cannot be written is lost, and so is a missing model.
   */
  function PullOutcome(part: Part, remote: PartValues, w: Weather): PullFate {
    var fate := WriteOf(w, part);
    match part
    case Color => if IsHexColor(remote.color) && fate != NotWritten then Applied else Lost
    case Soul => if fate != NotWritten then Applied else Lost
    case Config =>
      if remote.model == "" then Lost else if fate == Written then Applied else Throws(fate == WrittenThenThrew)
  }

  predicate Reaches(fate: PullFate) {
    fate == Applied || fate == Throws(true)
  }

  function SetPart(local: PartValues, part: Part, remote: PartValues): PartValues {
    match part
    case Color => local.(color := remote.color)
    case Soul => local.(soul := remote.soul)
    case Config => local.(model := remote.model, provider := remote.provider)
  }

  function PullPart(local: PartValues, part: Part, remote: PartValues, w: Weather): PartValues {
    if Reaches(PullOutcome(part, remote, w)) then SetPart(local, part, remote) else local
  }

  /** Applies pulls in order up to the first that throws. */
  function PullAll(local: PartValues, parts: seq<Part>, remote: PartValues, w: Weather): (PartValues, bool)
    decreases |parts|
  {
    if parts == [] then (local, true)
    else if PullOutcome(parts[0], remote, w).Throws? then (PullPart(local, parts[0], remote, w), false)
    else PullAll(PullPart(local, parts[0], remote, w), parts[1..], remote, w)
  }

  function NextBase(base: Base, part: Part, pair: Pair, w: Weather, pushedOk: bool): Base {
    var seen := SeenLocal(pair.local, w);
    match ActionFor(pair, w, part)
    case Pull => base[part := HashPart(part, pair.remote)]
    case Push => if pushedOk && !IsPartSkipped(part, seen) then base[part := HashPart(part, seen)] else base
    case Stay => base[part := HashPart(part, seen)]
  }

  function BasesFrom(parts: seq<Part>, pair: Pair, w: Weather, pushedOk: bool): Base {
    if parts == [] then SeenBase(pair.base, w)
    else NextBase(BasesFrom(parts[..|parts| - 1], pair, w, pushedOk), parts[|parts| - 1], pair, w, pushedOk)
  }

  /** The fields a pass wants to push; a configuration that cannot be read ends it before. */
  function BodyOf(pair: Pair, w: Weather): Body {
    if w.read.config.ConfigThrows? then EMPTY
    else BodyFrom(WithAction(pair, w, Push, PARTS), SeenLocal(pair.local, w))
  }

  function PushedRemote(remote: PartValues, body: Body, fate: PushFate): PartValues {
    if body == EMPTY then remote
    else
      match fate
      case Accepted => Patched(remote, body)
      case Refused => remote
      case Unreachable(applied) => if applied then Patched(remote, body) else remote
  }

  /**
   * The whole pass: read, push, pull, then record the new common ground; a throw
   * ends it there. What is decided and pushed is what was read; what is pulled goes
   * to the files as they are.
   */
  function Reconcile(pair: Pair, w: Weather): Pair {
    if w.read.config.ConfigThrows? then pair
    else
      var body := BodyOf(pair, w);
      var remote := PushedRemote(pair.remote, body, w.push);
      if body != EMPTY && w.push.Unreachable? then pair.(remote := remote)
      else
        var pulled := PullAll(pair.local, WithAction(pair, w, Pull, PARTS), pair.remote, w);
        var pushedOk := body == EMPTY || w.push.Accepted?;
        Pair(
          pulled.0,
          remote,
          if pulled.1 && w.stateWritten then BasesFrom(PARTS, pair, w, pushedOk) else pair.base)
  }

  method Classify(pair: Pair, w: Weather, parts: seq<Part>) returns (toPush: seq<Part>, toPull: seq<Part>)
    ensures toPush == WithAction(pair, w, Push, parts) && toPull == WithAction(pair, w, Pull, parts)
  {
    hide ActionFor;
    toPush, toPull := [], [];
    var i := 0;
    while i < |parts|
      invariant 0 <= i <= |parts|
      invariant toPush + WithAction(pair, w, Push, parts[i..]) == WithAction(pair, w, Push, parts)
      invariant toPull + WithAction(pair, w, Pull, parts[i..]) == WithAction(pair, w, Pull, parts)
    {
      var action := ActionFor(pair, w, parts[i]);
      if action == Push {
        toPush := toPush + [parts[i]];
      } else if action == Pull {
        toPull := toPull + [parts[i]];
      }
      i := i + 1;
    }
  }

  method RecordBase(pair: Pair, w: Weather, parts: seq<Part>, pushedOk: bool) returns (base: Base)
    ensures base == BasesFrom(parts, pair, w, pushedOk)
  {
    base := SeenBase(pair.base, w);
    var j := 0;
    while j < |parts|
      invariant 0 <= j <= |parts|
      invariant base == BasesFrom(parts[..j], pair, w, pushedOk)
    {
      assert parts[..j + 1][..j] == parts[..j];
      base := NextBase(base, parts[j], pair, w, pushedOk);
      j := j + 1;
    }
    assert parts[..|parts|] == parts;
  }

  /** A linked profile: its files, the agent in the cloud and the sync state file. */
  class AgentLink {
    var local: PartValues
    var remote: PartValues
    var base: Base

    constructor (local: PartValues, remote: PartValues, base: Base)
      ensures View() == Pair(local, remote, base)
    {
      this.local, this.remote, this.base := local, remote, base;
    }

    ghost function View(): Pair
      reads this
    {
      Pair(local, remote, base)
    }

    method PullParts(parts: seq<Part>, from: PartValues, w: Weather) returns (ok: bool)
      modifies `local
      ensures (local, ok) == PullAll(old(local), parts, from, w)
    {
      var k := 0;
      while k < |parts|
        invariant 0 <= k <= |parts|
        invariant PullAll(old(local), parts, from, w) == PullAll(local, parts[k..], from, w)
      {
        local := PullPart(local, parts[k], from, w);
        if PullOutcome(parts[k], from, w).Throws? {
          return false;
        }
        k := k + 1;
      }
      return true;
    }

    method ReconcileParts(w: Weather)
      modifies this
      ensures View() == Reconcile(old(View()), w)
    {
      if w.read.config.ConfigThrows? {
        return;
      }
      var before := Pair(local, remote, base);
      var toPush, toPull := Classify(before, w, PARTS);
      var body, skipped := BuildPushBody(toPush, SeenLocal(local, w));
      var pushedOk := true;
      if body != EMPTY {
        remote := PushedRemote(before.remote, body, w.push);
        if w.push.Unreachable? {
          return;
        }
        pushedOk := w.push.Accepted?;
      }
      var pulled := PullParts(toPull, before.remote, w);
      if !pulled {
        return;
      }
      var next := RecordBase(before, w, PARTS, pushedOk);
      if w.stateWritten {
        base := next;
      }
    }
  }
}
