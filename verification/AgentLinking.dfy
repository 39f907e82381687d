/**
 * Deciding which local profile syncs with which cloud agent: by the stored link
 * first, by exact name for profiles never synced, and what becomes of the rest.
 */
module AgentLinking {
  import opened Wrappers

  datatype Profile = Profile(id: string, name: string)

  datatype Agent = Agent(id: string, name: string)

  /** The stored link of a profile; the account is missing in files written before accounts were recorded. */
  datatype Link = Link(agentId: string, accountId: Option<string>)

  datatype Fate =
    | Linked(agentId: string)
    | LinkedByName(agentId: string)
    | Foreign
    | Unlinked
    | Unresolved
    | CreateRemote

  datatype Plan = Plan(fates: seq<Fate>, claimed: set<string>)

  predicate OfOtherAccount(link: Link, user: string) {
    link.accountId.Some? && link.accountId.value != "" && link.accountId.value != user
  }

  predicate Known(agents: seq<Agent>, id: string) {
    exists i :: 0 <= i < |agents| && agents[i].id == id
  }

  /** What a stored link, or its absence, means before names are looked at. */
  function FateOf(profile: Profile, links: map<string, Link>, agents: seq<Agent>, user: string): Fate {
    if profile.id !in links then CreateRemote
    else
      var link := links[profile.id];
      if OfOtherAccount(link, user) then Foreign
      else if Known(agents, link.agentId) then Linked(link.agentId)
      else if link.accountId == Some(user) then Unlinked
      else Unresolved
  }

  /** The first agent of a name that nobody has claimed, or -1. */
  function FirstFree(agents: seq<Agent>, name: string, claimed: set<string>, from: nat): (r: int)
    requires from <= |agents|
    ensures r == -1 || from <= r < |agents|
    ensures r == -1 ==> forall i :: from <= i < |agents| ==> agents[i].id in claimed || agents[i].name != name
    ensures r != -1 ==> agents[r].id !in claimed && agents[r].name == name
    decreases |agents| - from
  {
    if from == |agents| then -1
    else if agents[from].id !in claimed && agents[from].name == name then from
    else FirstFree(agents, name, claimed, from + 1)
  }

  predicate IsLinked(fate: Fate) {
    fate.Linked? || fate.LinkedByName?
  }

  /** Exactly the agents some profile is linked to are claimed. */
  ghost predicate ClaimsMatch(fates: seq<Fate>, claimed: set<string>) {
    forall id :: id in claimed <==> exists i :: 0 <= i < |fates| && IsLinked(fates[i]) && fates[i].agentId == id
  }

  /** An agent linked by name is linked to that one profile. */
  ghost predicate NamesLinkOnce(fates: seq<Fate>) {
    forall i, j :: 0 <= i < |fates| && 0 <= j < |fates| && i != j && fates[i].LinkedByName? && IsLinked(fates[j]) ==>
      fates[i].agentId != fates[j].agentId
  }

  /** The pass over stored links. */
  method ResolveLinks(profiles: seq<Profile>, links: map<string, Link>, agents: seq<Agent>, user: string)
    returns (plan: Plan)
    ensures |plan.fates| == |profiles|
    ensures forall i :: 0 <= i < |profiles| ==> plan.fates[i] == FateOf(profiles[i], links, agents, user)
    ensures ClaimsMatch(plan.fates, plan.claimed)
  {
    var fates: seq<Fate>, claimed := [], {};
    for i := 0 to |profiles|
      invariant |fates| == i
      invariant forall j :: 0 <= j < i ==> fates[j] == FateOf(profiles[j], links, agents, user)
      invariant ClaimsMatch(fates, claimed)
    {
      var fate := FateOf(profiles[i], links, agents, user);
      AddFate(fates, claimed, fate);
      fates := fates + [fate];
      if fate.Linked? {
        claimed := claimed + {fate.agentId};
      }
    }
    plan := Plan(fates, claimed);
  }

  lemma AddFate(fates: seq<Fate>, claimed: set<string>, fate: Fate)
    requires ClaimsMatch(fates, claimed)
    ensures ClaimsMatch(fates + [fate], if IsLinked(fate) then claimed + {fate.agentId} else claimed)
  {
    var more := fates + [fate];
    forall id
      ensures (exists i :: 0 <= i < |more| && IsLinked(more[i]) && more[i].agentId == id)
        <==> id in claimed || (IsLinked(fate) && fate.agentId == id)
    {
      if IsLinked(fate) && fate.agentId == id {
        assert more[|fates|] == fate;
      }
      if id in claimed {
        var i :| 0 <= i < |fates| && IsLinked(fates[i]) && fates[i].agentId == id;
        assert more[i] == fates[i];
      }
      if i :| 0 <= i < |more| && IsLinked(more[i]) && more[i].agentId == id {
        assert i < |fates| ==> fates[i] == more[i];
      }
    }
  }

  lemma SetFate(fates: seq<Fate>, claimed: set<string>, i: nat, id: string)
    requires ClaimsMatch(fates, claimed) && i < |fates| && fates[i].CreateRemote?
    ensures ClaimsMatch(fates[i := LinkedByName(id)], claimed + {id})
  {
    var more := fates[i := LinkedByName(id)];
    forall k
      ensures (exists j :: 0 <= j < |more| && IsLinked(more[j]) && more[j].agentId == k) <==> k in claimed + {id}
    {
      assert more[i].agentId == id;
      if k in claimed {
        var j :| 0 <= j < |fates| && IsLinked(fates[j]) && fates[j].agentId == k;
        assert more[j] == fates[j];
      }
      if j :| 0 <= j < |more| && IsLinked(more[j]) && more[j].agentId == k {
        assert j != i ==> more[j] == fates[j];
      }
    }
  }

  /** How a profile may leave the pass over names. */
  ghost predicate NamedFrom(profile: Profile, before: Fate, after: Fate, agents: seq<Agent>, claimed: set<string>) {
    if !before.CreateRemote? then after == before
    else
      || (after.LinkedByName? && exists i :: 0 <= i < |agents| && agents[i] == Agent(after.agentId, profile.name))
      || (after.CreateRemote? && forall i :: 0 <= i < |agents| && agents[i].name == profile.name ==> agents[i].id in claimed)
  }

  /** The pass over names, for the profiles that have never synced. */
  method LinkByName(profiles: seq<Profile>, agents: seq<Agent>, plan: Plan) returns (named: Plan)
    requires |plan.fates| == |profiles| && ClaimsMatch(plan.fates, plan.claimed)
    requires forall i :: 0 <= i < |profiles| ==> !plan.fates[i].LinkedByName?
    ensures |named.fates| == |profiles|
    ensures ClaimsMatch(named.fates, named.claimed) && NamesLinkOnce(named.fates)
    ensures plan.claimed <= named.claimed
    ensures forall i :: 0 <= i < |profiles| ==>
      NamedFrom(profiles[i], plan.fates[i], named.fates[i], agents, named.claimed)
  {
    var fates, claimed := plan.fates, plan.claimed;
    for i := 0 to |profiles|
      invariant |fates| == |profiles| && plan.claimed <= claimed
      invariant ClaimsMatch(fates, claimed) && NamesLinkOnce(fates)
      invariant forall j :: i <= j < |profiles| ==> fates[j] == plan.fates[j]
      invariant forall j :: 0 <= j < i ==> NamedFrom(profiles[j], plan.fates[j], fates[j], agents, claimed)
    {
      if fates[i].CreateRemote? {
        var found := FirstFree(agents, profiles[i].name, claimed, 0);
        if found != -1 {
          var id := agents[found].id;
          SetFate(fates, claimed, i, id);
          assert forall j :: 0 <= j < |fates| && IsLinked(fates[j]) ==> fates[j].agentId in claimed;
          claimed := claimed + {id};
          fates := fates[i := LinkedByName(id)];
          assert agents[found] == Agent(id, profiles[i].name);
        }
      }
    }
    named := Plan(fates, claimed);
  }

  /** The cloud agents a pass creates a local profile for. */
  function ToCreateLocally(agents: seq<Agent>, claimed: set<string>): seq<Agent> {
    if agents == [] then []
    else (if agents[0].id in claimed then [] else [agents[0]]) + ToCreateLocally(agents[1..], claimed)
  }

  lemma {:induction false} CreatedAreUnclaimed(agents: seq<Agent>, claimed: set<string>, agent: Agent)
    ensures agent in ToCreateLocally(agents, claimed) <==> agent in agents && agent.id !in claimed
  {
    if agents != [] {
      CreatedAreUnclaimed(agents[1..], claimed, agent);
      assert agents == [agents[0]] + agents[1..];
    }
  }

  /**
   * The whole decision: every profile gets one fate, a link of another account is
   * never followed, every agent is either linked or created locally, a name links
   * one profile only, and no profile and agent of the same name are both left over.
   */
  method PlanPass(profiles: seq<Profile>, links: map<string, Link>, agents: seq<Agent>, user: string)
    returns (plan: Plan, createLocally: seq<Agent>)
    ensures |plan.fates| == |profiles| && NamesLinkOnce(plan.fates)
    ensures forall i :: 0 <= i < |profiles| && profiles[i].id in links ==>
      plan.fates[i] == FateOf(profiles[i], links, agents, user)
    ensures forall i :: 0 <= i < |profiles| && profiles[i].id in links && OfOtherAccount(links[profiles[i].id], user) ==>
      plan.fates[i] == Foreign
    ensures forall agent :: agent in agents ==>
      (agent in createLocally <==>
        !exists i :: 0 <= i < |plan.fates| && IsLinked(plan.fates[i]) && plan.fates[i].agentId == agent.id)
    ensures forall i, agent :: 0 <= i < |profiles| && plan.fates[i].CreateRemote? && agent in createLocally ==>
      agent.name != profiles[i].name
  {
    var resolved := ResolveLinks(profiles, links, agents, user);
    plan := LinkByName(profiles, agents, resolved);
    createLocally := ToCreateLocally(agents, plan.claimed);
    forall agent
      ensures agent in createLocally <==> agent in agents && agent.id !in plan.claimed
    {
      CreatedAreUnclaimed(agents, plan.claimed, agent);
    }
    forall i, agent | 0 <= i < |profiles| && plan.fates[i].CreateRemote? && agent in createLocally
      ensures agent.name != profiles[i].name
    {
      assert NamedFrom(profiles[i], resolved.fates[i], plan.fates[i], agents, plan.claimed);
    }
    forall i | 0 <= i < |profiles| && profiles[i].id in links
      ensures plan.fates[i] == FateOf(profiles[i], links, agents, user)
    {
      assert NamedFrom(profiles[i], resolved.fates[i], plan.fates[i], agents, plan.claimed);
    }
  }
}
