/**
 * The gateway ownership ledger: launch, restart and adoption transitions over
 * the durable records, cold-start reconciliation, and the class that performs
 * them on its files one operation at a time.
 */
module OwnershipLedger {
  import opened Wrappers
  import opened OwnershipFiles

  datatype LedgerError = Conflict | SaveFailed

  /** Who runs this desktop: only records of this instance may be moved on. */
  datatype Instance = Instance(id: Uuid, pid: Pid)

  datatype Evidence = Evidence(identity: Option<string>, image: Option<string>)

  datatype Transition =
    | BeginLaunch(profile: ProfileId, preLaunchPid: Option<Pid>, launchId: Uuid, now: string)
    | MarkSpawned(profile: ProfileId, launchId: Uuid, spawnedPid: Pid, seen: Evidence)
    | BeginRestart(profile: ProfileId, preLaunchPid: Option<Pid>, launchId: Uuid, now: string)
    | RestoreRestart(launchId: Uuid, previous: Record)
    | AdoptListener(profile: ProfileId, launchId: Uuid, previousPid: Pid, previousSeen: Evidence,
                    listener: Pid, identity: string, image: string, replace: bool)
    | ClearLaunch(profile: ProfileId, onlyLaunch: Option<Uuid>)

  /** Index of the profile's record, or the length if there is none. */
  function Find(entries: Entries, profile: ProfileId): (i: nat)
    ensures i <= |entries|
    ensures i < |entries| ==> entries[i].profileId == profile
    ensures forall k :: 0 <= k < i ==> entries[k].profileId != profile
  {
    if entries == [] then 0
    else if entries[0].profileId == profile then 0
    else 1 + Find(entries[1..], profile)
  }

  function Without(entries: Entries, profiles: set<ProfileId>): (kept: Entries)
    ensures forall r :: r in kept <==> r in entries && r.profileId !in profiles
  {
    if entries == [] then []
    else (if entries[0].profileId in profiles then [] else [entries[0]]) + Without(entries[1..], profiles)
  }

  function LaunchRecord(me: Instance, t: Transition): Record
    requires t.BeginLaunch?
  {
    Record(t.launchId, me.id, me.pid, t.profile, t.preLaunchPid, None, None, None, None, None, None, t.now)
  }

  /** The record of this instance and this launch transaction. */
  predicate Mine(r: Record, me: Instance, launchId: Uuid) {
    r.launchId == launchId && r.desktopInstanceId == me.id
  }

  predicate Contradicts(recorded: Option<string>, seen: Option<string>) {
    recorded.Some? && recorded != seen
  }

  predicate SpawnConflict(r: Record, me: Instance, t: Transition)
    requires t.MarkSpawned?
  {
    || !Mine(r, me, t.launchId)
    || (r.spawnedPid.Some? && r.spawnedPid.value != t.spawnedPid)
    || (r.spawnedPid == Some(t.spawnedPid)
        && (Contradicts(r.spawnedIdentity, t.seen.identity) || Contradicts(r.spawnedImage, t.seen.image)))
  }

  predicate AdoptConflict(r: Record, me: Instance, t: Transition)
    requires t.AdoptListener?
  {
    || !Mine(r, me, t.launchId)
    || r.spawnedPid != Some(t.previousPid)
    || r.preLaunchPid == Some(t.listener)
    || (r.spawnedIdentity.Some?
        && (t.previousSeen.identity != r.spawnedIdentity || t.previousSeen.image != r.spawnedImage))
    || (!t.replace && r.listenerPid.Some?
        && (r.listenerPid.value != t.listener || r.listenerIdentity != Some(t.identity) || r.listenerImage != Some(t.image)))
  }

  /** The entries a transition asks the ledger to save; unchanged when it returns early. */
  function Apply(entries: Entries, me: Instance, t: Transition): Result<Entries, LedgerError> {
    match t
    case BeginLaunch(profile, _, _, _) =>
      if Find(entries, profile) < |entries| then Err(Conflict) else Ok(entries + [LaunchRecord(me, t)])
    case MarkSpawned(profile, _, spawnedPid, seen) =>
      var i := Find(entries, profile);
      if i == |entries| || SpawnConflict(entries[i], me, t) then Err(Conflict)
      else Ok(entries[i := entries[i].(spawnedPid := Some(spawnedPid), spawnedIdentity := seen.identity, spawnedImage := seen.image)])
    case BeginRestart(profile, preLaunchPid, launchId, now) =>
      var i := Find(entries, profile);
      if i == |entries| || entries[i].desktopInstanceId != me.id then Err(Conflict)
      else Ok(entries[i := entries[i].(launchId := launchId, preLaunchPid := preLaunchPid, spawnedPid := None,
                                       spawnedIdentity := None, spawnedImage := None, createdAt := now)])
    case RestoreRestart(launchId, previous) =>
      var i := Find(entries, previous.profileId);
      if i == |entries| || !Mine(entries[i], me, launchId) then Err(Conflict)
      else Ok(entries[i := previous])
    case AdoptListener(profile, _, _, _, listener, identity, image, _) =>
      var i := Find(entries, profile);
      if i == |entries| || AdoptConflict(entries[i], me, t) then Err(Conflict)
      else Ok(entries[i := entries[i].(listenerPid := Some(listener), listenerIdentity := Some(identity), listenerImage := Some(image))])
    case ClearLaunch(profile, onlyLaunch) =>
      var i := Find(entries, profile);
      if i == |entries| || (onlyLaunch.Some? && entries[i].launchId != onlyLaunch.value) then Ok(entries)
      else Ok(Without(entries, {profile}))
  }

  // ---------------------------------------------------------------------
  // What every transition keeps
  // ---------------------------------------------------------------------

  lemma FindsUnique(entries: Entries, i: nat)
    requires UniqueProfiles(entries) && i < |entries|
    ensures Find(entries, entries[i].profileId) == i
  {
  }

  lemma {:induction false} WithoutKeepsUnique(entries: Entries, profiles: set<ProfileId>)
    requires UniqueProfiles(entries)
    ensures UniqueProfiles(Without(entries, profiles))
  {
    if entries != [] {
      WithoutKeepsUnique(entries[1..], profiles);
      var rest := Without(entries[1..], profiles);
      forall k | 0 <= k < |rest| ensures rest[k].profileId != entries[0].profileId {
        assert rest[k] in entries[1..];
      }
    }
  }

  /** One record per profile, whatever the transition. */
  lemma ApplyKeepsUnique(entries: Entries, me: Instance, t: Transition)
    requires UniqueProfiles(entries) && Apply(entries, me, t).Ok?
    ensures UniqueProfiles(Apply(entries, me, t).value)
  {
    if t.ClearLaunch? {
      WithoutKeepsUnique(entries, {t.profile});
    }
  }

  /** Records of another desktop instance leave the ledger only by an explicit clear. */
  lemma ForeignRecordsStay(entries: Entries, me: Instance, t: Transition, r: Record)
    requires r in entries && r.desktopInstanceId != me.id && UniqueProfiles(entries)
    requires Apply(entries, me, t).Ok?
    requires !(t.ClearLaunch? && t.profile == r.profileId)
    ensures r in Apply(entries, me, t).value
  {
    var i :| 0 <= i < |entries| && entries[i] == r;
    FindsUnique(entries, i);
    if !t.ClearLaunch? {
      assert Apply(entries, me, t).value[i] == r;
    }
  }

  /** Progress of the launch the restart opened: spawning its wrapper, adopting its listener. */
  predicate Advances(t: Transition, profile: ProfileId) {
    (t.MarkSpawned? || t.AdoptListener?) && t.profile == profile
  }

  function ApplyAll(entries: Entries, me: Instance, ts: seq<Transition>): Result<Entries, LedgerError> {
    if ts == [] then Ok(entries)
    else
      match ApplyAll(entries, me, ts[..|ts| - 1])
      case Err(e) => Err(e)
      case Ok(es) => Apply(es, me, ts[|ts| - 1])
  }

  lemma {:induction false} AdvancingTouchesOneRecord(entries: Entries, me: Instance, profile: ProfileId, ts: seq<Transition>)
    requires forall k :: 0 <= k < |ts| ==> Advances(ts[k], profile)
    requires ApplyAll(entries, me, ts).Ok? && Find(entries, profile) < |entries|
    ensures var i := Find(entries, profile); var after := ApplyAll(entries, me, ts).value;
      && |after| == |entries| && Find(after, profile) == i
      && after == entries[i := after[i]]
      && after[i].launchId == entries[i].launchId && after[i].desktopInstanceId == entries[i].desktopInstanceId
  {
    if ts != [] {
      AdvancingTouchesOneRecord(entries, me, profile, ts[..|ts| - 1]);
      var es := ApplyAll(entries, me, ts[..|ts| - 1]).value;
      assert Advances(ts[|ts| - 1], profile);
      var i := Find(entries, profile);
      var after := Apply(es, me, ts[|ts| - 1]).value;
      assert forall k :: 0 <= k < |after| && k != i ==> after[k] == es[k];
      FindUnmoved(es, after, profile);
    }
  }

  lemma {:induction false} FindUnmoved(before: Entries, after: Entries, profile: ProfileId)
    requires |before| == |after|
    requires forall k :: 0 <= k < |before| ==> before[k].profileId == after[k].profileId
    ensures Find(before, profile) == Find(after, profile)
  {
    if before != [] {
      FindUnmoved(before[1..], after[1..], profile);
    }
  }

  /**
   * A restart can be taken back: however far its launch got, restoring the
   * previous record gives back exactly the ledger before the restart.
   */
  lemma RestoreUndoesRestart(entries: Entries, me: Instance, t: Transition, ts: seq<Transition>)
    requires t.BeginRestart? && Apply(entries, me, t).Ok?
    requires forall k :: 0 <= k < |ts| ==> Advances(ts[k], t.profile)
    requires ApplyAll(Apply(entries, me, t).value, me, ts).Ok?
    ensures var restarted := Apply(entries, me, t).value;
      var advanced := ApplyAll(restarted, me, ts).value;
      Apply(advanced, me, RestoreRestart(t.launchId, entries[Find(entries, t.profile)])) == Ok(entries)
  {
    var i := Find(entries, t.profile);
    var restarted := Apply(entries, me, t).value;
    FindUnmoved(entries, restarted, t.profile);
    AdvancingTouchesOneRecord(restarted, me, t.profile, ts);
    var advanced := ApplyAll(restarted, me, ts).value;
    assert advanced[i := entries[i]] == entries;
  }

  // ---------------------------------------------------------------------
  // Cold-start reconciliation
  // ---------------------------------------------------------------------

  datatype Answer<+T> = Value(value: T) | Threw

  /** What the operating system answers during one reconciliation; optional probes may be absent. */
  datatype Probes = Probes(
    currentPid: ProfileId -> Answer<Option<Pid>>,
    alive: Pid -> Answer<bool>,
    evidence: Option<Pid -> Answer<Option<Evidence>>>,
    clearDeadMarker: Option<(ProfileId, Pid) -> Answer<bool>>)

  datatype Verdict = Owned | Ambiguous | Removed

  predicate HasEvidence(r: Record) {
    if r.listenerPid.Some? then r.listenerIdentity.Some? && r.listenerImage.Some?
    else r.spawnedIdentity.Some? && r.spawnedImage.Some?
  }

  function KnownPids(r: Record): seq<Pid> {
    (if r.listenerPid.Some? then [r.listenerPid.value] else []) +
    (if r.spawnedPid.Some? && r.spawnedPid != r.listenerPid then [r.spawnedPid.value] else [])
  }

  /** `some(isAlive)`: stops at the first live PID, throws at the first failing probe. */
  function AnyAlive(pids: seq<Pid>, alive: Pid -> Answer<bool>): Answer<bool> {
    if pids == [] then Value(false)
    else
      match alive(pids[0])
      case Threw => Threw
      case Value(true) => Value(true)
      case Value(false) => AnyAlive(pids[1..], alive)
  }

  function Except(pids: seq<Pid>, p: Pid): seq<Pid> {
    if pids == [] then []
    else (if pids[0] == p then [] else [pids[0]]) + Except(pids[1..], p)
  }

  /** The PID the listener should have, given what gateway.pid names now. */
  function ExpectedListener(r: Record, current: Pid): Option<Pid> {
    if r.listenerPid.Some? then r.listenerPid else if r.spawnedPid == Some(current) then r.spawnedPid else None
  }

  function RecordedEvidence(r: Record): Evidence {
    if r.listenerPid.Some? then Evidence(r.listenerIdentity, r.listenerImage)
    else Evidence(r.spawnedIdentity, r.spawnedImage)
  }

  function ClassifyGone(r: Record, probes: Probes): Verdict {
    if AnyAlive(KnownPids(r), probes.alive) == Value(false) then Removed else Ambiguous
  }

  function ClassifyDead(r: Record, current: Pid, probes: Probes): Verdict {
    if AnyAlive(KnownPids(r), probes.alive) != Value(false) then Ambiguous
    else if ExpectedListener(r, current) == Some(current) && probes.clearDeadMarker.Some?
            && probes.clearDeadMarker.value(r.profileId, current) != Value(true) then Ambiguous
    else Removed
  }

  function ClassifyAlive(r: Record, current: Pid, probes: Probes): Verdict {
    if r.preLaunchPid == Some(current) then
      if AnyAlive(Except(KnownPids(r), current), probes.alive) == Value(false) then Removed else Ambiguous
    else if ExpectedListener(r, current) != Some(current) then Ambiguous
    else if probes.evidence.None? then Ambiguous
    else if probes.evidence.value(current) == Value(Some(RecordedEvidence(r))) then Owned
    else Ambiguous
  }

  function Classify(r: Record, probes: Probes): Verdict {
    if !HasEvidence(r) then Ambiguous
    else
      match probes.currentPid(r.profileId)
      case Threw => Ambiguous
      case Value(None) => ClassifyGone(r, probes)
      case Value(Some(current)) =>
        match probes.alive(current)
        case Threw => Ambiguous
        case Value(false) => ClassifyDead(r, current, probes)
        case Value(true) => ClassifyAlive(r, current, probes)
  }

  lemma {:induction false} AnyAliveExact(pids: seq<Pid>, alive: Pid -> Answer<bool>)
    ensures AnyAlive(pids, alive) == Value(false) <==> forall k :: 0 <= k < |pids| ==> alive(pids[k]) == Value(false)
  {
    if pids != [] {
      AnyAliveExact(pids[1..], alive);
      assert pids == [pids[0]] + pids[1..];
    }
  }

  lemma {:induction false} ExceptExact(pids: seq<Pid>, p: Pid)
    ensures forall q :: q in Except(pids, p) <==> q in pids && q != p
  {
    if pids != [] {
      ExceptExact(pids[1..], p);
    }
  }

  predicate Recorded(r: Record, p: Pid) {
    r.listenerPid == Some(p) || r.spawnedPid == Some(p)
  }

  /** gateway.pid names a live process that is not the pre-launch one. */
  predicate OwnsLive(r: Record, p: Pid, probes: Probes) {
    && probes.currentPid(r.profileId) == Value(Some(p))
    && probes.alive(p) == Value(true)
    && r.preLaunchPid != Some(p)
    && (if r.listenerPid.Some? then r.listenerPid == Some(p) else r.spawnedPid == Some(p))
    && probes.evidence.Some?
    && probes.evidence.value(p) == Value(Some(RecordedEvidence(r)))
  }

  /** A profile is owned exactly when its live PID carries the recorded identity and image. */
  lemma OwnedExactly(r: Record, probes: Probes)
    ensures Classify(r, probes) == Owned <==> HasEvidence(r) && exists p :: OwnsLive(r, p, probes)
  {
    if Classify(r, probes) == Owned {
      assert OwnsLive(r, probes.currentPid(r.profileId).value.value, probes);
    }
  }

  /** The marker names nothing, a dead process whose marker could be cleared, or the live pre-launch process. */
  predicate MarkerSpent(r: Record, probes: Probes) {
    match probes.currentPid(r.profileId)
    case Threw => false
    case Value(None) => true
    case Value(Some(p)) =>
      match probes.alive(p)
      case Threw => false
      case Value(true) => r.preLaunchPid == Some(p)
      case Value(false) =>
        (if r.listenerPid.Some? then r.listenerPid == Some(p) else r.spawnedPid == Some(p)) && probes.clearDeadMarker.Some? ==>
          probes.clearDeadMarker.value(r.profileId, p) == Value(true)
  }

  /** A live PID that the launch found already running is nobody's evidence. */
  predicate LivePreLaunch(r: Record, p: Pid, probes: Probes) {
    probes.currentPid(r.profileId) == Value(Some(p)) && r.preLaunchPid == Some(p) && probes.alive(p) == Value(true)
  }

  /** A record is removed exactly when every recorded PID, except a live pre-launch one, is dead. */
  lemma RemovedExactly(r: Record, probes: Probes)
    ensures Classify(r, probes) == Removed <==>
      && HasEvidence(r)
      && MarkerSpent(r, probes)
      && forall p :: Recorded(r, p) && !LivePreLaunch(r, p, probes) ==> probes.alive(p) == Value(false)
  {
    if HasEvidence(r) && probes.currentPid(r.profileId).Value? {
      var pids := KnownPids(r);
      assert forall p :: p in pids <==> Recorded(r, p);
      AnyAliveExact(pids, probes.alive);
      if probes.currentPid(r.profileId).value.Some? {
        var current := probes.currentPid(r.profileId).value.value;
        if LivePreLaunch(r, current, probes) {
          RemovedWhileAlive(r, current, probes);
        }
      }
    }
  }

  lemma RemovedWhileAlive(r: Record, current: Pid, probes: Probes)
    requires LivePreLaunch(r, current, probes)
    ensures AnyAlive(Except(KnownPids(r), current), probes.alive) == Value(false) <==>
      forall p :: Recorded(r, p) && !LivePreLaunch(r, p, probes) ==> probes.alive(p) == Value(false)
  {
    var pids := KnownPids(r);
    assert forall p :: p in pids <==> Recorded(r, p);
    ExceptExact(pids, current);
    AnyAliveExact(Except(pids, current), probes.alive);
  }

  /** The foreign profiles with this verdict, in ledger order. */
  function Listed(entries: Entries, me: Instance, probes: Probes, verdict: Verdict): seq<ProfileId> {
    if entries == [] then []
    else
      var last := entries[|entries| - 1];
      Listed(entries[..|entries| - 1], me, probes, verdict) +
        if last.desktopInstanceId != me.id && Classify(last, probes) == verdict then [last.profileId] else []
  }

  function RemovedProfiles(entries: Entries, me: Instance, probes: Probes): set<ProfileId> {
    if entries == [] then {}
    else
      var last := entries[|entries| - 1];
      RemovedProfiles(entries[..|entries| - 1], me, probes) +
        if last.desktopInstanceId != me.id && Classify(last, probes) == Removed then {last.profileId} else {}
  }

  lemma {:induction false} WithoutNone(entries: Entries)
    ensures Without(entries, {}) == entries
  {
    if entries != [] {
      WithoutNone(entries[1..]);
    }
  }

  lemma {:induction false} ListedExactly(entries: Entries, me: Instance, probes: Probes, r: Record)
    requires UniqueProfiles(entries) && r in entries
    ensures forall v :: r.profileId in Listed(entries, me, probes, v) <==> r.desktopInstanceId != me.id && Classify(r, probes) == v
    ensures r.profileId in RemovedProfiles(entries, me, probes) <==> r.desktopInstanceId != me.id && Classify(r, probes) == Removed
  {
    var before := entries[..|entries| - 1];
    var last := entries[|entries| - 1];
    if r == last {
      NotListedEarlier(before, me, probes, r.profileId);
    } else {
      var i :| 0 <= i < |entries| && entries[i] == r;
      assert before[i] == r;
      ListedExactly(before, me, probes, r);
    }
  }

  lemma {:induction false} NotListedEarlier(entries: Entries, me: Instance, probes: Probes, profile: ProfileId)
    requires forall k :: 0 <= k < |entries| ==> entries[k].profileId != profile
    ensures forall v :: profile !in Listed(entries, me, probes, v)
    ensures profile !in RemovedProfiles(entries, me, probes)
  {
    if entries != [] {
      NotListedEarlier(entries[..|entries| - 1], me, probes, profile);
    }
  }

  /**
   * Reconciliation partitions the ledger: a record of this instance is kept
   * and not listed; a foreign one is listed as owned, listed as ambiguous, or
   * removed, and only the removed ones leave.
   */
  lemma ReconciliationPartitions(entries: Entries, me: Instance, probes: Probes, r: Record)
    requires UniqueProfiles(entries) && r in entries
    ensures var owned := r.profileId in Listed(entries, me, probes, Owned);
      var ambiguous := r.profileId in Listed(entries, me, probes, Ambiguous);
      var kept := r in Without(entries, RemovedProfiles(entries, me, probes));
      && !(owned && ambiguous)
      && (r.desktopInstanceId == me.id ==> kept && !owned && !ambiguous)
      && (r.desktopInstanceId != me.id ==> (kept <==> owned || ambiguous))
      && (r.desktopInstanceId != me.id && !HasEvidence(r) ==> ambiguous)
  {
    ListedExactly(entries, me, probes, r);
  }

  // ---------------------------------------------------------------------
  // What a transition records, and what a later cold start makes of it
  // ---------------------------------------------------------------------

  /** The profile's record, if there is one. */
  function RecordOf(entries: Entries, profile: ProfileId): Option<Record> {
    var i := Find(entries, profile);
    if i < |entries| then Some(entries[i]) else None
  }

  function ProfileOf(t: Transition): ProfileId {
    if t.RestoreRestart? then t.previous.profileId else t.profile
  }

  /** Why a transition is refused: the record it needs is not there, or not this launch's, or says something else. */
  predicate Refuses(r: Option<Record>, me: Instance, t: Transition) {
    match t
    case BeginLaunch(_, _, _, _) => r.Some?
    case MarkSpawned(_, _, _, _) => r.None? || SpawnConflict(r.value, me, t)
    case BeginRestart(_, _, _, _) => r.None? || r.value.desktopInstanceId != me.id
    case RestoreRestart(launchId, _) => r.None? || !Mine(r.value, me, launchId)
    case AdoptListener(_, _, _, _, _, _, _, _) => r.None? || AdoptConflict(r.value, me, t)
    case ClearLaunch(_, _) => false
  }

  /** A transition is refused by the record of its own profile alone, and touches no other profile's. */
  lemma TransitionIsLocal(entries: Entries, me: Instance, t: Transition, profile: ProfileId)
    ensures Apply(entries, me, t).Err? <==> Refuses(RecordOf(entries, ProfileOf(t)), me, t)
    ensures Apply(entries, me, t).Ok? && profile != ProfileOf(t) ==>
      RecordOf(Apply(entries, me, t).value, profile) == RecordOf(entries, profile)
  {
    if Apply(entries, me, t).Ok? && profile != ProfileOf(t) {
      match t
      case BeginLaunch(_, _, _, _) => AppendedElsewhere(entries, LaunchRecord(me, t), profile);
      case ClearLaunch(p, _) => ClearedElsewhere(entries, p, profile);
      case _ =>
        var after := Apply(entries, me, t).value;
        FindUnmoved(entries, after, profile);
    }
  }

  lemma {:induction false} AppendedElsewhere(entries: Entries, r: Record, profile: ProfileId)
    requires r.profileId != profile
    ensures RecordOf(entries + [r], profile) == RecordOf(entries, profile)
  {
    if entries != [] {
      assert (entries + [r])[1..] == entries[1..] + [r];
      AppendedElsewhere(entries[1..], r, profile);
    }
  }

  lemma FirstRecord(r: Record, rest: Entries, profile: ProfileId)
    ensures RecordOf([r] + rest, profile) == if r.profileId == profile then Some(r) else RecordOf(rest, profile)
  {
    assert ([r] + rest)[1..] == rest;
  }

  lemma WithoutFirst(r: Record, rest: Entries, cleared: ProfileId)
    ensures Without([r] + rest, {cleared}) == (if r.profileId == cleared then [] else [r]) + Without(rest, {cleared})
  {
    assert ([r] + rest)[1..] == rest;
  }

  lemma {:induction false} ClearedElsewhere(entries: Entries, cleared: ProfileId, profile: ProfileId)
    requires cleared != profile
    ensures RecordOf(Without(entries, {cleared}), profile) == RecordOf(entries, profile)
  {
    if entries != [] {
      hide RecordOf, Without;
      var first, rest := entries[0], entries[1..];
      ClearedElsewhere(rest, cleared, profile);
      assert entries == [first] + rest;
      WithoutFirst(first, rest, cleared);
      FirstRecord(first, rest, profile);
      FirstRecord(first, Without(rest, {cleared}), profile);
      assert [] + Without(rest, {cleared}) == Without(rest, {cleared});
    }
  }

  /** Clearing takes the profile's record out, unless it is of another launch than the one named. */
  lemma ClearedExactly(entries: Entries, me: Instance, t: Transition)
    requires UniqueProfiles(entries) && t.ClearLaunch?
    ensures
      var before, after := RecordOf(entries, t.profile), RecordOf(Apply(entries, me, t).value, t.profile);
      after == if before.Some? && t.onlyLaunch.Some? && before.value.launchId != t.onlyLaunch.value then before else None
  {
    var after := Without(entries, {t.profile});
    assert forall k :: 0 <= k < |after| ==> after[k] in after;
  }

  /** A new launch is recorded for this instance, with the process it found running and no evidence of its own yet. */
  lemma LaunchIsRecorded(entries: Entries, me: Instance, t: Transition)
    requires t.BeginLaunch? && Apply(entries, me, t).Ok?
    ensures
      var r := RecordOf(Apply(entries, me, t).value, t.profile);
      && r.Some? && Mine(r.value, me, t.launchId) && r.value.desktopPid == me.pid
      && r.value.preLaunchPid == t.preLaunchPid && r.value.createdAt == t.now
      && KnownPids(r.value) == [] && !HasEvidence(r.value)
  {
    FoundLast(entries, LaunchRecord(me, t));
  }

  lemma {:induction false} FoundLast(entries: Entries, r: Record)
    requires Find(entries, r.profileId) == |entries|
    ensures Find(entries + [r], r.profileId) == |entries|
  {
    if entries != [] {
      assert (entries + [r])[1..] == entries[1..] + [r];
      FoundLast(entries[1..], r);
    }
  }

  /** The process gateway.pid names is alive, was not there before the launch, and shows this evidence. */
  predicate Shows(probes: Probes, profile: ProfileId, p: Pid, seen: Evidence) {
    && probes.currentPid(profile) == Value(Some(p))
    && probes.alive(p) == Value(true)
    && probes.evidence.Some?
    && probes.evidence.value(p) == Value(Some(seen))
  }

  /** After its listener was adopted a profile is owned, at a later cold start, exactly if the listener is there with the adopted identity and image. */
  lemma AdoptedIsOwnedExactly(entries: Entries, me: Instance, t: Transition, probes: Probes)
    requires t.AdoptListener? && Apply(entries, me, t).Ok?
    ensures
      var r := RecordOf(Apply(entries, me, t).value, t.profile);
      r.Some? &&
      (Classify(r.value, probes) == Owned <==>
        Shows(probes, t.profile, t.listener, Evidence(Some(t.identity), Some(t.image))))
  {
    var i := Find(entries, t.profile);
    var after := Apply(entries, me, t).value;
    FindUnmoved(entries, after, t.profile);
    OwnedExactly(after[i], probes);
    if Shows(probes, t.profile, t.listener, Evidence(Some(t.identity), Some(t.image))) {
      assert OwnsLive(after[i], t.listener, probes);
    }
  }

  /** Before a listener was adopted, exactly if the spawned process is there with the evidence it was recorded with. */
  lemma SpawnedIsOwnedExactly(entries: Entries, me: Instance, t: Transition, probes: Probes)
    requires t.MarkSpawned? && Apply(entries, me, t).Ok?
    requires RecordOf(entries, t.profile).value.listenerPid.None?
    ensures
      var before, r := RecordOf(entries, t.profile).value, RecordOf(Apply(entries, me, t).value, t.profile);
      r.Some? &&
      (Classify(r.value, probes) == Owned <==>
        && t.seen.identity.Some? && t.seen.image.Some?
        && before.preLaunchPid != Some(t.spawnedPid)
        && Shows(probes, t.profile, t.spawnedPid, t.seen))
  {
    var i := Find(entries, t.profile);
    var after := Apply(entries, me, t).value;
    FindUnmoved(entries, after, t.profile);
    OwnedExactly(after[i], probes);
    if Shows(probes, t.profile, t.spawnedPid, t.seen) && after[i].preLaunchPid != Some(t.spawnedPid) && HasEvidence(after[i]) {
      assert OwnsLive(after[i], t.spawnedPid, probes);
    }
  }

  /** A restart is recorded as a launch of its own, of the same instance, which has spawned nothing yet; its listener is still known. */
  lemma RestartIsRecorded(entries: Entries, me: Instance, t: Transition)
    requires t.BeginRestart? && Apply(entries, me, t).Ok?
    ensures
      var before, r := RecordOf(entries, t.profile).value, RecordOf(Apply(entries, me, t).value, t.profile);
      && r.Some? && Mine(r.value, me, t.launchId)
      && r.value.preLaunchPid == t.preLaunchPid && r.value.createdAt == t.now
      && KnownPids(r.value) == (if before.listenerPid.Some? then [before.listenerPid.value] else [])
      && (before.listenerPid.Some? ==> RecordedEvidence(r.value) == RecordedEvidence(before))
      && (before.listenerPid.None? ==> !HasEvidence(r.value))
  {
    FindUnmoved(entries, Apply(entries, me, t).value, t.profile);
  }
}
