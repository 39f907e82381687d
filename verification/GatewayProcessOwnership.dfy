/**
 * The ledger object: its fields, the file operations of persist and
 * promotePending one by one, the transitions, and the reconciliation loop.
 */
module GatewayProcessOwnership {
  import opened Wrappers
  import opened OwnershipFiles
  import opened OwnershipProgress
  import opened OwnershipLedger

  /** The three files and the schedule of failures still to come. */
  class OwnershipDirectory {
    var disk: Disk
    var io: seq<Fault>

    constructor (disk: Disk, io: seq<Fault>)
      ensures this.disk == disk && this.io == io
    {
      this.disk, this.io := disk, io;
    }

    ghost function At(status: Status): Machine
      reads this
    {
      Machine(disk, io, status)
    }

    method Perform(good: Disk, bad: Disk) returns (status: Status)
      modifies this
      ensures At(status) == Attempt(old(At(Running)), good, bad)
    {
      var fault := if io == [] then Fine else io[0];
      if io != [] { io := io[1..]; }
      match fault
      case Fine => disk := good; status := Running;
      case Fails(retryable, _) => disk := bad; status := Thrown(retryable);
      case Crash => status := Crashed;
    }

    /** An operation whose error is swallowed. */
    method PerformQuietly(good: Disk) returns (status: Status)
      modifies this
      ensures At(status) == Ignoring(Attempt(old(At(Running)), good, old(disk)))
    {
      status := Perform(good, disk);
      if status.Thrown? { status := Running; }
    }

    method OpenExclusive() returns (status: Status)
      modifies this
      ensures At(status) == OpenPending(old(At(Running)))
    {
      if disk.pending.File? {
        status := if io != [] && io[0] == Crash then Crashed else Thrown(true);
        if io != [] { io := io[1..]; }
      } else {
        status := Perform(disk.(pending := File(Junk, false)), disk);
      }
    }

    method Write(next: Entries) returns (status: Status)
      modifies this
      ensures At(status) == WritePending(old(At(Running)), next)
    {
      var torn := disk.(pending := File(Junk, false));
      var full := disk.(pending := File(Saved(next, CURRENT_VERSION), false));
      if io != [] && io[0] == Crash {
        disk := torn;
        io := io[1..];
        return Crashed;
      }
      status := Perform(full, if io != [] && io[0].Fails? && io[0].torn then torn else full);
    }

    method Fsync() returns (status: Status)
      modifies this
      ensures At(status) == SyncPending(old(At(Running)))
    {
      var synced := if disk.pending.File? then disk.(pending := disk.pending.(synced := true)) else disk;
      status := Perform(synced, disk);
    }

    method RemoveBackupBestEffort() returns (status: Status)
      modifies this
      ensures At(status) == RemoveBackup(old(At(Running)))
    {
      if disk.backup.Absent? { return Running; }
      status := PerformQuietly(disk.(backup := Absent));
    }

    method FinishPromotion() returns (status: Status)
      modifies this
      ensures At(status) == Finish(old(At(Running)))
    {
      status := PerformQuietly(disk);
      if status == Running { status := RemoveBackupBestEffort(); }
    }

    method RenameAgain(canonicalMoved: bool) returns (status: Status)
      modifies this
      ensures At(status) == PromoteAgain(old(At(Running)), canonicalMoved)
    {
      status := Perform(Disk(Absent, disk.pending, disk.backup), disk);
      if status == Running {
        status := FinishPromotion();
      } else if status.Thrown? && canonicalMoved && disk.canonical.Absent? {
        var restored := Perform(Disk(disk.pending, disk.backup, Absent), disk);
        if restored == Crashed { status := Crashed; }
      }
    }

    method PromotePending() returns (status: Status)
      modifies this
      ensures At(status) == OwnershipFiles.PromotePending(old(At(Running)))
    {
      if disk.pending.Absent? { return Running; }
      if !Readable(disk.pending) { return Thrown(false); }
      status := Perform(Disk(Absent, disk.pending, disk.backup), disk);
      if status == Running {
        status := FinishPromotion();
        return;
      }
      if status != Thrown(true) { return; }
      status := RemoveBackupBestEffort();
      if status != Running { return; }
      var canonicalMoved := false;
      if disk.canonical.File? {
        status := Perform(Disk(disk.pending, Absent, disk.canonical), disk);
        if status != Running { return; }
        canonicalMoved := true;
      }
      status := RenameAgain(canonicalMoved);
    }

    method AbandonPending(createdPending: bool) returns (status: Status)
      modifies this
      ensures At(status) == Abandon(old(At(Thrown(false))), createdPending)
    {
      status := PerformQuietly(disk);
      if status != Running { return; }
      if createdPending { status := PerformQuietly(disk.(pending := Absent)); }
      if status != Crashed { status := Thrown(false); }
    }

    method Fill(next: Entries) returns (status: Status)
      modifies this
      ensures At(status) == FillPending(old(At(Running)), next)
    {
      status := Write(next);
      if status != Running { return; }
      status := Fsync();
      if status != Running { return; }
      status := Perform(disk, disk);
      if status != Running { return; }
      status := Perform(disk, disk);
    }

    method CommitPending(next: Entries) returns (status: Status, promotionOwed: bool)
      modifies this
      ensures Persisted(At(status), promotionOwed) == Commit(old(At(Running)), next)
    {
      promotionOwed := false;
      status := OpenExclusive();
      if status == Crashed { return; }
      if status != Running { status := AbandonPending(false); return; }
      status := Fill(next);
      if status == Crashed { return; }
      if status != Running { status := AbandonPending(true); return; }
      status := PromotePending();
      if status.Thrown? {
        promotionOwed := true;
        status := Running;
      }
    }

    method Persist(next: Entries) returns (status: Status, promotionOwed: bool)
      modifies this
      ensures Persisted(At(status), promotionOwed) == OwnershipFiles.Persist(old(At(Running)), next)
    {
      promotionOwed := false;
      status := Perform(disk, disk);
      if status == Running { status := PromotePending(); }
      if status == Crashed { return; }
      if status != Running { status := AbandonPending(false); return; }
      status, promotionOwed := CommitPending(next);
    }
  }

  /** The files as the constructor of the ledger reads them. */
  class OwnershipReader {
    const directory: OwnershipDirectory
    var loadIssue: LoadIssue

    constructor (directory: OwnershipDirectory)
      ensures this.directory == directory && loadIssue == NoIssue
    {
      this.directory := directory;
      loadIssue := NoIssue;
    }

    method RewriteOlderVersion(from: Slot) returns (status: Status, entries: Entries)
      requires Readable(from)
      modifies this, directory
      ensures Loaded(directory.At(status), entries, loadIssue) == Normalize(old(directory.At(Running)), from, old(loadIssue))
              || (status == Crashed && directory.At(status) == Normalize(old(directory.At(Running)), from, old(loadIssue)).machine)
    {
      entries := from.content.entries;
      status := Running;
      if from.content.version != CURRENT_VERSION {
        var promotionOwed: bool;
        status, promotionOwed := directory.Persist(entries);
        loadIssue := if status.Thrown? || promotionOwed then PersistenceFailed else NoIssue;
      }
    }

    method Read() returns (status: Status, entries: Entries)
      requires loadIssue == NoIssue
      modifies this, directory
      ensures directory.At(status) == ReadState(old(directory.At(Running))).machine
      ensures status != Crashed ==>
        Loaded(directory.At(status), entries, loadIssue) == ReadState(old(directory.At(Running)))
    {
      var pending := directory.disk.pending;
      if Readable(pending) {
        status, entries := RewriteOlderVersion(pending);
        if status != Running { return; }
        status := directory.PromotePending();
        if status.Thrown? { loadIssue := PersistenceFailed; }
        return;
      }
      if pending.File? {
        loadIssue := PersistenceFailed;
        status := directory.PerformQuietly(directory.disk.(pending := Absent));
        if status != Running { return status, []; }
      }
      status, entries := Running, [];
      var canonical := directory.disk.canonical;
      if Readable(canonical) {
        status, entries := RewriteOlderVersion(canonical);
      } else if Readable(directory.disk.backup) {
        loadIssue := PersistenceFailed;
        entries := directory.disk.backup.content.entries;
      } else if canonical.File? || directory.disk.pending.File? || directory.disk.backup.File? {
        loadIssue := InvalidOwnership;
      }
    }
  }

  datatype Attempted = Returned | Refused | Failed | Died

  class GatewayProcessOwnershipLedger {
    const me: Instance
    const directory: OwnershipDirectory
    var state: Entries
    var loadIssue: LoadIssue

    /** One record per profile. */
    ghost predicate Valid()
      reads this
    {
      UniqueProfiles(state)
    }

    constructor (me: Instance, directory: OwnershipDirectory, loaded: Loaded)
      requires UniqueProfiles(loaded.entries)
      ensures this.me == me && this.directory == directory
      ensures state == loaded.entries && loadIssue == loaded.issue
    {
      this.me, this.directory := me, directory;
      state, loadIssue := loaded.entries, loaded.issue;
    }

    /** No operation to come fails, and no unreadable pending file is in the way. */
    ghost predicate Smooth()
      reads directory
    {
      FaultFree(directory.io) && Promotable(directory.disk)
    }

    /** The memory copy follows the disk only when the save returned, which it does without faults. */
    method ReplaceState(next: Entries) returns (r: Attempted)
      modifies this, directory
      ensures r != Refused
      ensures var p := Persist(old(directory.At(Running)), next);
        && directory.disk == p.machine.disk && directory.io == p.machine.io
        && (r == Returned <==> p.machine.status == Running)
        && (r == Died <==> p.machine.status == Crashed)
        && (r == Returned ==> loadIssue == if p.loadIssue then PersistenceFailed else NoIssue)
      ensures state == if r == Returned then next else old(state)
      ensures r != Returned ==> loadIssue == old(loadIssue)
      ensures old(Smooth()) && UniqueProfiles(next) ==>
        && r == Returned && Smooth() && loadIssue == NoIssue
        && directory.disk == Disk(Absent, File(Saved(next, CURRENT_VERSION), true), Absent)
    {
      if Smooth() && UniqueProfiles(next) {
        FaultFreeSave(directory.disk, directory.io, next);
      }
      var status, promotionOwed := directory.Persist(next);
      match status
      case Crashed => r := Died;
      case Thrown(_) => r := Failed;
      case Running =>
        loadIssue := if promotionOwed then PersistenceFailed else NoIssue;
        state := next;
        r := Returned;
    }

    method FindIndex(profile: ProfileId) returns (i: nat)
      ensures i == Find(state, profile)
    {
      i := 0;
      while i < |state| && state[i].profileId != profile
        invariant i <= |state|
        invariant Find(state, profile) == i + Find(state[i..], profile)
      {
        i := i + 1;
      }
    }

    method Filter(profiles: set<ProfileId>) returns (kept: Entries)
      ensures kept == Without(state, profiles)
    {
      kept := [];
      var i := |state|;
      while i > 0
        invariant 0 <= i <= |state|
        invariant kept == Without(state[i..], profiles)
      {
        i := i - 1;
        assert state[i..][1..] == state[i + 1..];
        if state[i].profileId !in profiles { kept := [state[i]] + kept; }
      }
      assert state[0..] == state;
    }

    /**
     * A conflict changes nothing, a failed save leaves the memory copy as it
     * was, and a returned call has made exactly the transition, in memory and
     * on disk.
     */
    ghost predicate Performed(t: Transition, before: Entries, diskBefore: Disk, r: Attempted)
      reads this, directory
    {
      && UniqueProfiles(state)
      && (r == Refused <==> Apply(before, me, t).Err?)
      && (r == Returned ==> Ok(state) == Apply(before, me, t))
      && (r != Returned ==> state == before)
      && (r == Refused ==> directory.disk == diskBefore)
      && (r == Returned && !t.ClearLaunch? ==> Keeps(directory.disk, Some(state)))
      && (r == Returned && t.ClearLaunch? ==> Keeps(directory.disk, Some(state)) || (state == before && directory.disk == diskBefore))
    }

    /** Saves the entries a transition asks for. */
    method Save(t: Transition, next: Entries) returns (r: Attempted)
      requires Valid() && Apply(state, me, t) == Ok(next)
      modifies this, directory
      ensures Performed(t, old(state), old(directory.disk), r) && r != Refused
      ensures r == Returned ==> Valid()
      ensures old(Smooth()) ==> r == Returned && Smooth()
    {
      hide OwnershipFiles.Persist;
      ApplyKeepsUnique(state, me, t);
      PersistLeaves(directory.At(Running), Recover(directory.disk), next);
      r := ReplaceState(next);
    }

    method BeginLaunch(profile: ProfileId, preLaunchPid: Option<Pid>, launchId: Uuid, now: string) returns (r: Attempted)
      requires Valid()
      modifies this, directory
      ensures Performed(OwnershipLedger.BeginLaunch(profile, preLaunchPid, launchId, now), old(state), old(directory.disk), r)
      ensures old(Smooth()) ==>
        Smooth() && (r == Returned <==> Apply(old(state), me, OwnershipLedger.BeginLaunch(profile, preLaunchPid, launchId, now)).Ok?)
    {
      var i := FindIndex(profile);
      if i < |state| { return Refused; }
      var record := Record(launchId, me.id, me.pid, profile, preLaunchPid, None, None, None, None, None, None, now);
      r := Save(OwnershipLedger.BeginLaunch(profile, preLaunchPid, launchId, now), state + [record]);
    }

    method MarkSpawned(profile: ProfileId, launchId: Uuid, spawnedPid: Pid, seen: Evidence) returns (r: Attempted)
      requires Valid()
      modifies this, directory
      ensures Performed(OwnershipLedger.MarkSpawned(profile, launchId, spawnedPid, seen), old(state), old(directory.disk), r)
      ensures old(Smooth()) ==>
        Smooth() && (r == Returned <==> Apply(old(state), me, OwnershipLedger.MarkSpawned(profile, launchId, spawnedPid, seen)).Ok?)
    {
      var t := OwnershipLedger.MarkSpawned(profile, launchId, spawnedPid, seen);
      var i := FindIndex(profile);
      if i == |state| || SpawnConflict(state[i], me, t) { return Refused; }
      var updated := state[i].(spawnedPid := Some(spawnedPid), spawnedIdentity := seen.identity, spawnedImage := seen.image);
      r := Save(t, state[i := updated]);
    }

    method BeginRestart(profile: ProfileId, preLaunchPid: Option<Pid>, launchId: Uuid, now: string)
      returns (r: Attempted, previous: Option<Record>)
      requires Valid()
      modifies this, directory
      ensures Performed(OwnershipLedger.BeginRestart(profile, preLaunchPid, launchId, now), old(state), old(directory.disk), r)
      ensures old(Smooth()) ==>
        Smooth() && (r == Returned <==> Apply(old(state), me, OwnershipLedger.BeginRestart(profile, preLaunchPid, launchId, now)).Ok?)
      ensures r == Returned ==> Find(old(state), profile) < |old(state)|
                                && previous == Some(old(state)[Find(old(state), profile)])
    {
      previous := None;
      var i := FindIndex(profile);
      if i == |state| || state[i].desktopInstanceId != me.id { return Refused, None; }
      previous := Some(state[i]);
      var record := state[i].(launchId := launchId, preLaunchPid := preLaunchPid, spawnedPid := None,
                              spawnedIdentity := None, spawnedImage := None, createdAt := now);
      r := Save(OwnershipLedger.BeginRestart(profile, preLaunchPid, launchId, now), state[i := record]);
    }

    method RestoreRestart(launchId: Uuid, previous: Record) returns (r: Attempted)
      requires Valid()
      modifies this, directory
      ensures Performed(OwnershipLedger.RestoreRestart(launchId, previous), old(state), old(directory.disk), r)
      ensures old(Smooth()) ==>
        Smooth() && (r == Returned <==> Apply(old(state), me, OwnershipLedger.RestoreRestart(launchId, previous)).Ok?)
    {
      var i := FindIndex(previous.profileId);
      if i == |state| || state[i].launchId != launchId || state[i].desktopInstanceId != me.id { return Refused; }
      r := Save(OwnershipLedger.RestoreRestart(launchId, previous), state[i := previous]);
    }

    method AdoptSpawnedPid(t: Transition) returns (r: Attempted)
      requires Valid() && t.AdoptListener?
      modifies this, directory
      ensures Performed(t, old(state), old(directory.disk), r)
      ensures old(Smooth()) ==>
        Smooth() && (r == Returned <==> Apply(old(state), me, t).Ok?)
    {
      var i := FindIndex(t.profile);
      if i == |state| || AdoptConflict(state[i], me, t) { return Refused; }
      var updated := state[i].(listenerPid := Some(t.listener), listenerIdentity := Some(t.identity), listenerImage := Some(t.image));
      r := Save(t, state[i := updated]);
    }

    method ClearLaunch(profile: ProfileId, onlyLaunch: Option<Uuid>) returns (r: Attempted)
      requires Valid()
      modifies this, directory
      ensures Performed(OwnershipLedger.ClearLaunch(profile, onlyLaunch), old(state), old(directory.disk), r)
      ensures old(Smooth()) ==>
        Smooth() && (r == Returned <==> Apply(old(state), me, OwnershipLedger.ClearLaunch(profile, onlyLaunch)).Ok?)
    {
      var i := FindIndex(profile);
      if i == |state| || (onlyLaunch.Some? && state[i].launchId != onlyLaunch.value) { return Returned; }
      var kept := Filter({profile});
      r := Save(OwnershipLedger.ClearLaunch(profile, onlyLaunch), kept);
    }

    /**
     * The reconciliation loop. Owned and ambiguous profiles are listed in
     * ledger order; the removed ones leave the ledger in one save.
     */
    method ReconcileColdStart(probes: Probes) returns (r: Attempted, owned: seq<ProfileId>, ambiguous: seq<ProfileId>)
      requires Valid()
      modifies this, directory
      ensures owned == Listed(old(state), me, probes, Owned)
      ensures ambiguous == Listed(old(state), me, probes, Ambiguous)
      ensures var removed := RemovedProfiles(old(state), me, probes);
        && (r == Returned ==> state == Without(old(state), removed))
        && (r != Returned ==> state == old(state))
        && (removed == {} ==> r == Returned && state == old(state) && directory.disk == old(directory.disk))
        && (r == Returned && removed != {} ==> Keeps(directory.disk, Some(state)))
      ensures old(Smooth()) ==> r == Returned && Smooth()
    {
      owned, ambiguous := [], [];
      var remove: set<ProfileId> := {};
      var i := 0;
      assert state[..0] == [];
      while i < |state|
        invariant i <= |state|
        invariant owned == Listed(state[..i], me, probes, Owned)
        invariant ambiguous == Listed(state[..i], me, probes, Ambiguous)
        invariant remove == RemovedProfiles(state[..i], me, probes)
      {
        assert state[..i + 1][..i] == state[..i];
        var entry := state[i];
        i := i + 1;
        if entry.desktopInstanceId == me.id { continue; }
        match Classify(entry, probes)
        case Owned => owned := owned + [entry.profileId];
        case Ambiguous => ambiguous := ambiguous + [entry.profileId];
        case Removed => remove := remove + {entry.profileId};
      }
      assert state[..i] == state;
      if remove == {} {
        WithoutNone(state);
        return Returned, owned, ambiguous;
      }
      var kept := Filter(remove);
      WithoutKeepsUnique(state, remove);
      PersistLeaves(directory.At(Running), Recover(directory.disk), kept);
      r := ReplaceState(kept);
    }
  }
}
