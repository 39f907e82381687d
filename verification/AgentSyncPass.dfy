/**
 * A whole sync pass: the linked pairs one after another, each against the list
 * of cloud agents fetched before the first of them.
 */
module AgentSyncPass {
  import opened AgentLinking
  import opened AgentSync
  import opened AgentSyncLaws
  import opened Wrappers

  /** Profiles by position, agents by id. */
  datatype World = World(locals: seq<PartValues>, bases: seq<Base>, agents: map<string, PartValues>)

  predicate Fits(world: World, fates: seq<Fate>, ws: seq<Weather>, order: seq<nat>) {
    && |world.locals| == |world.bases| == |fates| == |ws|
    && (forall k :: 0 <= k < |order| ==>
          order[k] < |fates| && IsLinked(fates[order[k]]) && fates[order[k]].agentId in world.agents)
    && (forall j, k :: 0 <= j < k < |order| ==> order[j] != order[k])
  }

  /** The pair as this pass sees it: the agent is the one fetched at the start. */
  function FetchedPair(world: World, fetched: map<string, PartValues>, i: nat, id: string): Pair
    requires i < |world.locals| && i < |world.bases| && id in fetched
  {
    Pair(world.locals[i], fetched[id], world.bases[i])
  }

  /** The cloud's own agent takes the push, whatever was fetched. */
  function PushedTo(agent: PartValues, seen: Pair, w: Weather): PartValues {
    PushedRemote(agent, BodyOf(seen, w), w.push)
  }

  function SyncOne(world: World, fetched: map<string, PartValues>, i: nat, id: string, w: Weather): World
    requires i < |world.locals| && i < |world.bases| && id in fetched && id in world.agents
  {
    var seen := FetchedPair(world, fetched, i, id);
    var after := Reconcile(seen, w);
    World(world.locals[i := after.local], world.bases[i := after.base],
          world.agents[id := PushedTo(world.agents[id], seen, w)])
  }

  /** The first n pairs in the order of the pass. */
  function Synced(world: World, fates: seq<Fate>, ws: seq<Weather>, order: seq<nat>, n: nat): (r: World)
    requires Fits(world, fates, ws, order) && n <= |order|
    ensures |r.locals| == |world.locals| && |r.bases| == |world.bases| && r.agents.Keys == world.agents.Keys
  {
    if n == 0 then world
    else
      var i := order[n - 1];
      SyncOne(Synced(world, fates, ws, order, n - 1), world.agents, i, fates[i].agentId, ws[i])
  }

  /** The loop over the linked pairs. */
  method SyncLinked(world: World, fates: seq<Fate>, ws: seq<Weather>, order: seq<nat>) returns (after: World)
    requires Fits(world, fates, ws, order)
    ensures after == Synced(world, fates, ws, order, |order|)
  {
    hide SyncOne;
    after := world;
    for n := 0 to |order|
      invariant after == Synced(world, fates, ws, order, n)
    {
      var i := order[n];
      after := SyncOne(after, world.agents, i, fates[i].agentId, ws[i]);
    }
  }

  /** The pair of a profile before the pass. */
  function PairOf(world: World, fates: seq<Fate>, i: nat): Pair
    requires i < |fates| == |world.locals| == |world.bases| && IsLinked(fates[i]) && fates[i].agentId in world.agents
  {
    FetchedPair(world, world.agents, i, fates[i].agentId)
  }

  lemma NotYet(order: seq<nat>, n: nat)
    requires 0 < n <= |order| && forall j, k :: 0 <= j < k < |order| ==> order[j] != order[k]
    ensures order[n - 1] !in order[..n - 1] && order[..n] == order[..n - 1] + [order[n - 1]]
  {
    assert forall k :: 0 <= k < n - 1 ==> order[k] != order[n - 1];
  }

  /** A pass does to each profile exactly what reconciling its own pair does. */
  lemma {:induction false} ProfilesAfter(world: World, fates: seq<Fate>, ws: seq<Weather>, order: seq<nat>, n: nat, i: nat)
    requires Fits(world, fates, ws, order) && n <= |order| && i < |fates|
    ensures
      var after := Synced(world, fates, ws, order, n);
      if i in order[..n] then
        && IsLinked(fates[i]) && fates[i].agentId in world.agents
        && after.locals[i] == Reconcile(PairOf(world, fates, i), ws[i]).local
        && after.bases[i] == Reconcile(PairOf(world, fates, i), ws[i]).base
      else after.locals[i] == world.locals[i] && after.bases[i] == world.bases[i]
  {
    hide Reconcile, PushedTo;
    if n > 0 {
      var last := order[n - 1];
      ProfilesAfter(world, fates, ws, order, n - 1, i);
      ProfilesAfter(world, fates, ws, order, n - 1, last);
      NotYet(order, n);
    }
  }

  /** The push of a linked profile took effect. */
  predicate Pushes(world: World, fates: seq<Fate>, ws: seq<Weather>, i: nat, id: string, part: Part)
    requires |world.locals| == |world.bases| == |fates| == |ws| && i < |fates|
  {
    && IsLinked(fates[i]) && fates[i].agentId == id && id in world.agents
    && PushTakes(PairOf(world, fates, i), ws[i], part)
  }

  /** The last of the first n pairs that pushed a part to an agent. */
  function LastPush(world: World, fates: seq<Fate>, ws: seq<Weather>, order: seq<nat>, n: nat, id: string, part: Part): (r: Option<nat>)
    requires Fits(world, fates, ws, order) && n <= |order|
    ensures r.Some? ==> r.value < |fates| && r.value in order[..n] && Pushes(world, fates, ws, r.value, id, part)
    ensures r.None? ==> forall k :: 0 <= k < n ==> !Pushes(world, fates, ws, order[k], id, part)
  {
    if n == 0 then None
    else if Pushes(world, fates, ws, order[n - 1], id, part) then
      assert order[n - 1] in order[..n];
      Some(order[n - 1])
    else
      assert forall i :: i in order[..n - 1] ==> i in order[..n];
      LastPush(world, fates, ws, order, n - 1, id, part)
  }

  /** No provider is missing on any side, as both are read with "auto" in its place. */
  predicate AllReadable(world: World) {
    && (forall i :: 0 <= i < |world.locals| ==> world.locals[i].provider != "")
    && (forall id :: id in world.agents ==> world.agents[id].provider != "")
  }

  lemma PushedPart(agent: PartValues, seen: Pair, w: Weather, part: Part)
    requires Readable(seen) && agent.provider != ""
    ensures HashPart(part, PushedTo(agent, seen, w))
      == if PushTakes(seen, w, part) then SeenOf(seen, w, part) else HashPart(part, agent)
    ensures PushedTo(agent, seen, w).provider != ""
  {
    var local := SeenLocal(seen.local, w);
    var parts := WithAction(seen, w, Push, PARTS);
    var body := BodyFrom(parts, local);
    AllParts(part);
    PatchedParts(agent, parts, local, part);
    ProviderStays(agent, parts, local);
    if body == EMPTY {
      assert Patched(agent, body) == agent;
    }
  }

  /** What the pass reads of a profile's part. */
  function SeenAt(world: World, ws: seq<Weather>, i: nat, part: Part): Hash
    requires i < |world.locals| && i < |ws|
  {
    HashPart(part, SeenLocal(world.locals[i], ws[i]))
  }

  /** Of several profiles linked to one agent, the last whose push took effect is what the cloud holds, part by part. */
  lemma {:induction false} LastPushWins(
    world: World, fates: seq<Fate>, ws: seq<Weather>, order: seq<nat>, n: nat, id: string, part: Part)
    requires Fits(world, fates, ws, order) && n <= |order| && id in world.agents && AllReadable(world)
    ensures
      var after := Synced(world, fates, ws, order, n).agents[id];
      var push := LastPush(world, fates, ws, order, n, id, part);
      && HashPart(part, after) == (if push.Some? then SeenAt(world, ws, push.value, part) else HashPart(part, world.agents[id]))
      && after.provider != ""
  {
    hide Reconcile, PushedTo, PushTakes, AllReadable, HashPart;
    if n == 0 {
      AgentReadable(world, id);
    } else {
      LastPushWins(world, fates, ws, order, n - 1, id, part);
      var i := order[n - 1];
      AgentStep(world, fates, ws, order, n, id);
      hide Synced, Fits;
      if fates[i].agentId == id {
        PairReadable(world, fates, i);
        PushedPart(Synced(world, fates, ws, order, n - 1).agents[id], PairOf(world, fates, i), ws[i], part);
      }
    }
  }

  lemma AgentReadable(world: World, id: string)
    requires AllReadable(world) && id in world.agents
    ensures world.agents[id].provider != ""
  {
  }

  lemma PairReadable(world: World, fates: seq<Fate>, i: nat)
    requires i < |fates| == |world.locals| == |world.bases| && IsLinked(fates[i]) && fates[i].agentId in world.agents
    requires AllReadable(world)
    ensures Readable(PairOf(world, fates, i))
  {
  }

  /** What one pair does to an agent. */
  lemma AgentStep(world: World, fates: seq<Fate>, ws: seq<Weather>, order: seq<nat>, n: nat, id: string)
    requires Fits(world, fates, ws, order) && 0 < n <= |order| && id in world.agents
    ensures
      var i, before := order[n - 1], Synced(world, fates, ws, order, n - 1).agents[id];
      Synced(world, fates, ws, order, n).agents[id]
        == if fates[i].agentId == id then PushedTo(before, PairOf(world, fates, i), ws[i]) else before
  {
    hide Reconcile, PushedTo;
    var i := order[n - 1];
    ProfilesAfter(world, fates, ws, order, n - 1, i);
    NotYet(order, n);
    assert FetchedPair(Synced(world, fates, ws, order, n - 1), world.agents, i, fates[i].agentId) == PairOf(world, fates, i);
  }

  /** No other profile of the pass is linked to the agent. */
  predicate Alone(fates: seq<Fate>, order: seq<nat>, i: nat)
    requires i < |fates| && IsLinked(fates[i])
  {
    forall k :: 0 <= k < |order| && order[k] != i && order[k] < |fates| && IsLinked(fates[order[k]]) ==>
      fates[order[k]].agentId != fates[i].agentId
  }

  /** The pair of a profile after the pass. */
  function PairAfter(world: World, fates: seq<Fate>, ws: seq<Weather>, order: seq<nat>, i: nat): Pair
    requires Fits(world, fates, ws, order) && i < |fates| && IsLinked(fates[i]) && fates[i].agentId in world.agents
  {
    var after := Synced(world, fates, ws, order, |order|);
    Pair(after.locals[i], after.agents[fates[i].agentId], after.bases[i])
  }

  /** A profile alone on its agent is reconciled as if there were no other, so every law of one pair holds of it. */
  lemma AloneIsReconciled(world: World, fates: seq<Fate>, ws: seq<Weather>, order: seq<nat>, i: nat)
    requires Fits(world, fates, ws, order) && AllReadable(world) && i in order
    requires Alone(fates, order, i)
    ensures PairAfter(world, fates, ws, order, i) == Reconcile(PairOf(world, fates, i), ws[i])
  {
    hide Reconcile, Synced;
    assert order[..|order|] == order;
    ProfilesAfter(world, fates, ws, order, |order|, i);
    var id, pair := fates[i].agentId, PairOf(world, fates, i);
    var after := PairAfter(world, fates, ws, order, i);
    forall part
      ensures HashPart(part, after.remote) == HashPart(part, Reconcile(pair, ws[i]).remote)
    {
      LastPushWins(world, fates, ws, order, |order|, id, part);
      RemoteAfter(pair, ws[i], part);
      var push := LastPush(world, fates, ws, order, |order|, id, part);
      if push.Some? {
        assert push.value == i;
      } else {
        var k :| 0 <= k < |order| && order[k] == i;
        assert !Pushes(world, fates, ws, order[k], id, part);
      }
    }
    SameParts(after.remote, Reconcile(pair, ws[i]).remote);
  }

  /**
   * On a shared agent a push that took effect is only there as long as nobody
   * pushed another value behind it. If somebody did, a completed pass has still
   * recorded it as common ground, and the next pass that reads the part pulls the
   * other value over it.
   */
  lemma SharedPushSurvivesExactly(
    world: World, fates: seq<Fate>, ws: seq<Weather>, order: seq<nat>, i: nat, part: Part, w': Weather)
    requires Fits(world, fates, ws, order) && AllReadable(world) && i in order
    requires PushTakes(PairOf(world, fates, i), ws[i], part) && Completes(PairOf(world, fates, i), ws[i])
    ensures
      var after := PairAfter(world, fates, ws, order, i);
      var push := LastPush(world, fates, ws, order, |order|, fates[i].agentId, part);
      var pushed := SeenAt(world, ws, i, part);
      && push.Some?
      && LocalOf(after, part) == HashPart(part, world.locals[i]) && BaseOf(after.base, part) == Some(pushed)
      && (RemoteOf(after, part) == pushed <==> SeenAt(world, ws, push.value, part) == pushed)
      && (RemoteOf(after, part) != pushed == LocalOf(after, part) ==> ReadsPart(w', part) ==> ActionFor(after, w', part) == Pull)
  {
    hide Reconcile, Synced, ActionFor, HashPart, SeenLocal, PushTakes, Completes, ReadsPart, AllReadable;
    assert order[..|order|] == order;
    var id, pair := fates[i].agentId, PairOf(world, fates, i);
    ProfilesAfter(world, fates, ws, order, |order|, i);
    LastPushWins(world, fates, ws, order, |order|, id, part);
    NotPulled(pair, ws[i], part);
    var k :| 0 <= k < |order| && order[k] == i;
    assert Pushes(world, fates, ws, order[k], id, part);
    PulledOver(PairAfter(world, fates, ws, order, i), w', part);
  }

  lemma NotPulled(pair: Pair, w: Weather, part: Part)
    requires PushTakes(pair, w, part) && Completes(pair, w)
    ensures LocalOf(Reconcile(pair, w), part) == LocalOf(pair, part)
    ensures BaseOf(Reconcile(pair, w).base, part) == Some(SeenOf(pair, w, part))
  {
    LocalAfter(pair, w, part);
    BaseAfter(pair, w, part);
  }

  /** A recorded local value is given up for whatever else the cloud holds. */
  lemma PulledOver(pair: Pair, w: Weather, part: Part)
    ensures BaseOf(pair.base, part) == Some(LocalOf(pair, part)) != Some(RemoteOf(pair, part)) ==>
      ReadsPart(w, part) ==> ActionFor(pair, w, part) == Pull
  {
    if ReadsPart(w, part) {
      SeenAsIs(pair, w, part);
    }
  }
}
