/**
 * The three files of the gateway ownership ledger and the code that moves one
 * state into them. Every file operation may succeed, fail or be the last one
 * before a crash; a file that was never fsynced may come back from a crash
 * missing or truncated.
 */
module OwnershipFiles {
  import opened Wrappers

  type Uuid = string
  type ProfileId = string
  type Pid = nat

  datatype Record = Record(
    launchId: Uuid,
    desktopInstanceId: Uuid,
    desktopPid: Pid,
    profileId: ProfileId,
    preLaunchPid: Option<Pid>,
    spawnedPid: Option<Pid>,
    spawnedIdentity: Option<string>,
    spawnedImage: Option<string>,
    listenerPid: Option<Pid>,
    listenerIdentity: Option<string>,
    listenerImage: Option<string>,
    createdAt: string)

  type Entries = seq<Record>

  const CURRENT_VERSION: nat := 3

  /** File bytes: a serialized state with its schema version, or anything else. */
  datatype Content = Saved(entries: Entries, version: nat) | Junk

  datatype Slot = Absent | File(content: Content, synced: bool)

  datatype Disk = Disk(pending: Slot, canonical: Slot, backup: Slot)

  predicate UniqueProfiles(entries: Entries) {
    forall i, j :: 0 <= i < j < |entries| ==> entries[i].profileId != entries[j].profileId
  }

  /** What readCandidateWithVersion makes of a file. */
  predicate Readable(s: Slot) {
    && s.File? && s.content.Saved?
    && 1 <= s.content.version <= CURRENT_VERSION
    && UniqueProfiles(s.content.entries)
  }

  function Parsed(s: Slot): Option<Entries> {
    if Readable(s) then Some(s.content.entries) else None
  }

  function Or(a: Option<Entries>, b: Option<Entries>): Option<Entries> {
    if a.Some? then a else b
  }

  /** The state a reader finds: pending first, then canonical, then backup. */
  function Recover(d: Disk): Option<Entries> {
    Or(Parsed(d.pending), Or(Parsed(d.canonical), Parsed(d.backup)))
  }

  // ---------------------------------------------------------------------
  // File operations
  // ---------------------------------------------------------------------

  /** `retryable` is one of EACCES, EBUSY, EEXIST, EPERM; `torn` that a failed write left partial bytes. */
  datatype Fault = Fine | Fails(retryable: bool, torn: bool) | Crash

  datatype Status = Running | Thrown(retryable: bool) | Crashed

  datatype Machine = Machine(disk: Disk, io: seq<Fault>, status: Status)

  function Next(m: Machine): Fault {
    if m.io == [] then Fine else m.io[0]
  }

  function Rest(m: Machine): seq<Fault> {
    if m.io == [] then [] else m.io[1..]
  }

  /** One operation that leaves `good` on disk if it succeeds and `bad` if it fails. */
  function Attempt(m: Machine, good: Disk, bad: Disk): Machine
    requires m.status == Running
  {
    match Next(m)
    case Fine => Machine(good, Rest(m), Running)
    case Fails(retryable, _) => Machine(bad, Rest(m), Thrown(retryable))
    case Crash => Machine(m.disk, Rest(m), Crashed)
  }

  /** mkdir, close, chmod: no bytes change. */
  function Touch(m: Machine): Machine
    requires m.status == Running
  {
    Attempt(m, m.disk, m.disk)
  }

  /** open with "wx". */
  function OpenPending(m: Machine): Machine
    requires m.status == Running
  {
    if m.disk.pending.File? then Machine(m.disk, Rest(m), if Next(m) == Crash then Crashed else Thrown(true))
    else Attempt(m, m.disk.(pending := File(Junk, false)), m.disk)
  }

  function WritePending(m: Machine, next: Entries): Machine
    requires m.status == Running
  {
    var full := m.disk.(pending := File(Saved(next, CURRENT_VERSION), false));
    var torn := m.disk.(pending := File(Junk, false));
    if Next(m) == Crash then Machine(torn, Rest(m), Crashed)
    else Attempt(m, full, if Next(m).Fails? && Next(m).torn then torn else full)
  }

  function SyncPending(m: Machine): Machine
    requires m.status == Running
  {
    Attempt(m, if m.disk.pending.File? then m.disk.(pending := m.disk.pending.(synced := true)) else m.disk, m.disk)
  }

  function PromoteRename(m: Machine): Machine
    requires m.status == Running
  {
    Attempt(m, Disk(Absent, m.disk.pending, m.disk.backup), m.disk)
  }

  function RetireRename(m: Machine): Machine
    requires m.status == Running
  {
    Attempt(m, Disk(m.disk.pending, Absent, m.disk.canonical), m.disk)
  }

  function RestoreRename(m: Machine): Machine
    requires m.status == Running
  {
    Attempt(m, Disk(m.disk.pending, m.disk.backup, Absent), m.disk)
  }

  /** The error of a best-effort operation is ignored; a crash is not. */
  function Ignoring(m: Machine): Machine {
    if m.status.Thrown? then m.(status := Running) else m
  }

  function RemoveBackup(m: Machine): Machine
    requires m.status == Running
  {
    if m.disk.backup.Absent? then m else Ignoring(Attempt(m, m.disk.(backup := Absent), m.disk))
  }

  function RemovePending(m: Machine): Machine
    requires m.status == Running
  {
    Ignoring(Attempt(m, m.disk.(pending := Absent), m.disk))
  }

  function SyncRoot(m: Machine): Machine
    requires m.status == Running
  {
    Ignoring(Touch(m))
  }

  // ---------------------------------------------------------------------
  // promotePending, persist, readState
  // ---------------------------------------------------------------------

  /** After the pending file has become canonical. */
  function Finish(m: Machine): Machine
    requires m.status == Running
  {
    var synced := SyncRoot(m);
    if synced.status != Running then synced else RemoveBackup(synced)
  }

  function Throwing(m: Machine, retryable: bool): Machine {
    if m.status == Crashed then m else m.(status := Thrown(retryable))
  }

  /** The second rename of the slow path, with the restore of the retired file. */
  function PromoteAgain(m: Machine, moved: bool): Machine
    requires m.status == Running
  {
    var renamed := PromoteRename(m);
    if renamed.status == Running then Finish(renamed)
    else if renamed.status.Thrown? && moved && renamed.disk.canonical.Absent? then
      Throwing(RestoreRename(renamed.(status := Running)), renamed.status.retryable)
    else renamed
  }

  function PromoteSlowly(m: Machine): Machine
    requires m.status == Running
  {
    var cleared := RemoveBackup(m);
    if cleared.status != Running then cleared
    else if cleared.disk.canonical.Absent? then PromoteAgain(cleared, false)
    else
      var retired := RetireRename(cleared);
      if retired.status != Running then retired else PromoteAgain(retired, true)
  }

  function PromotePending(m: Machine): Machine
    requires m.status == Running
  {
    if m.disk.pending.Absent? then m
    else if !Readable(m.disk.pending) then m.(status := Thrown(false))
    else
      var renamed := PromoteRename(m);
      match renamed.status
      case Running => Finish(renamed)
      case Thrown(true) => PromoteSlowly(renamed.(status := Running))
      case _ => renamed
  }

  /** What persist reports: a returned call says whether the promotion is still owed. */
  datatype Persisted = Persisted(machine: Machine, loadIssue: bool)

  /** The catch block: close, and unlink a pending file this call created. */
  function Abandon(m: Machine, created: bool): Machine
    requires m.status.Thrown?
  {
    var closed := Ignoring(Touch(m.(status := Running)));
    if closed.status != Running then closed
    else if created then Throwing(RemovePending(closed), false)
    else Throwing(closed, false)
  }

  /** write, fsync, close and chmod of the pending file this call created. */
  function FillPending(m: Machine, next: Entries): Machine
    requires m.status == Running
  {
    var written := WritePending(m, next);
    if written.status != Running then written
    else
      var synced := SyncPending(written);
      if synced.status != Running then synced
      else
        var closed := Touch(synced);
        if closed.status != Running then closed else Touch(closed)
  }

  /** From the exclusive open on; the directory exists and no pending file is owed. */
  function Commit(m: Machine, next: Entries): Persisted
    requires m.status == Running
  {
    var file := OpenPending(m);
    match file.status
    case Crashed => Persisted(file, false)
    case Thrown(_) => Persisted(Abandon(file, false), false)
    case Running =>
      var filled := FillPending(file, next);
      match filled.status
      case Crashed => Persisted(filled, false)
      case Thrown(_) => Persisted(Abandon(filled, true), false)
      case Running =>
        var promoted := PromotePending(filled);
        Persisted(Ignoring(promoted), promoted.status.Thrown?)
  }

  function Persist(m: Machine, next: Entries): Persisted
    requires m.status == Running
  {
    var made := Touch(m);
    match made.status
    case Crashed => Persisted(made, false)
    case Thrown(_) => Persisted(Abandon(made, false), false)
    case Running =>
      var promoted := PromotePending(made);
      match promoted.status
      case Crashed => Persisted(promoted, false)
      case Thrown(_) => Persisted(Abandon(promoted, false), false)
      case Running => Commit(promoted, next)
  }

  datatype LoadIssue = NoIssue | InvalidOwnership | PersistenceFailed

  datatype Loaded = Loaded(machine: Machine, entries: Entries, issue: LoadIssue)

  /** A readable file of an older schema version is rewritten through persist. */
  function Normalize(m: Machine, from: Slot, issue: LoadIssue): Loaded
    requires m.status == Running && Readable(from)
  {
    var v := from.content.entries;
    if from.content.version == CURRENT_VERSION then Loaded(m, v, issue)
    else
      var p := Persist(m, v);
      match p.machine.status
      case Crashed => Loaded(p.machine, v, issue)
      case Thrown(_) => Loaded(p.machine, v, PersistenceFailed)
      case Running => Loaded(p.machine, v, if p.loadIssue then PersistenceFailed else NoIssue)
  }

  function LoadPending(m: Machine): Loaded
    requires m.status == Running && Readable(m.disk.pending)
  {
    var l := Normalize(m, m.disk.pending, NoIssue);
    if l.machine.status != Running then l
    else
      var promoted := PromotePending(l.machine);
      if promoted.status.Thrown? then Loaded(promoted, l.entries, PersistenceFailed) else Loaded(promoted, l.entries, l.issue)
  }

  function LoadOlder(m: Machine, issue: LoadIssue): Loaded
    requires m.status == Running
  {
    if Readable(m.disk.canonical) then Normalize(m, m.disk.canonical, issue)
    else if Readable(m.disk.backup) then Loaded(m, m.disk.backup.content.entries, PersistenceFailed)
    else if m.disk.canonical.File? || m.disk.pending.File? || m.disk.backup.File? then Loaded(m, [], InvalidOwnership)
    else Loaded(m, [], issue)
  }

  /** A Thrown status of the result is the last error the constructor swallowed. */
  function ReadState(m: Machine): Loaded
    requires m.status == Running
  {
    if Readable(m.disk.pending) then LoadPending(m)
    else if m.disk.pending.File? then
      var removed := RemovePending(m);
      if removed.status == Running then LoadOlder(removed, PersistenceFailed)
      else Loaded(removed, [], PersistenceFailed)
    else LoadOlder(m, NoIssue)
  }

  // ---------------------------------------------------------------------
  // Crash images
  // ---------------------------------------------------------------------

  /** What a power loss may make of a file: whatever is there afterwards is on the disk for good. */
  predicate SlotImage(s: Slot, after: Slot) {
    if s.File? && !s.synced then after == Absent || after == File(Junk, true) || after == s.(synced := true)
    else after == s
  }

  predicate Image(d: Disk, after: Disk) {
    SlotImage(d.pending, after.pending) && SlotImage(d.canonical, after.canonical) && SlotImage(d.backup, after.backup)
  }

  function Older(d: Disk): Option<Entries> {
    Or(Parsed(d.canonical), Parsed(d.backup))
  }

  predicate ReadableSynced(s: Slot) {
    Readable(s) && s.synced
  }

  /** The older file that would be read was fsynced, or the one behind it was and holds the same. */
  predicate OlderDurable(d: Disk) {
    if Readable(d.canonical) then
      d.canonical.synced || (ReadableSynced(d.backup) && Parsed(d.backup) == Parsed(d.canonical))
    else Readable(d.backup) ==> d.backup.synced
  }

  /** No readable pending file that was not fsynced, and without a readable one, a durable older file. */
  predicate Durable(d: Disk) {
    if Readable(d.pending) then d.pending.synced else OlderDurable(d)
  }

  /** Every image of the disk recovers exactly v, also after a promotion. */
  predicate Keeps(d: Disk, v: Option<Entries>) {
    Durable(d) && v == Recover(d)
  }

  /** A readable pending file holds `next` but was not fsynced; the older files hold v. */
  predicate Half(d: Disk, v: Option<Entries>, next: Entries) {
    Parsed(d.pending) == Some(next) && OlderDurable(d) && v == Older(d)
  }

  predicate Either(d: Disk, v: Option<Entries>, next: Entries) {
    Keeps(d, v) || Keeps(d, Some(next)) || Half(d, v, next)
  }

  lemma KeepsImages(d: Disk, v: Option<Entries>, after: Disk)
    requires Keeps(d, v) && Image(d, after)
    ensures Recover(after) == v && Keeps(after, v)
  {
  }

  lemma HalfImages(d: Disk, v: Option<Entries>, next: Entries, after: Disk)
    requires Half(d, v, next) && Image(d, after)
    ensures Recover(after) == v || Recover(after) == Some(next)
  {
  }

  lemma RemoveBackupKeeps(m: Machine, v: Option<Entries>)
    requires m.status == Running && Keeps(m.disk, v)
    requires Readable(m.disk.pending) || ReadableSynced(m.disk.canonical)
    ensures Keeps(RemoveBackup(m).disk, v) && !RemoveBackup(m).status.Thrown?
    ensures RemoveBackup(m).disk.pending == m.disk.pending && RemoveBackup(m).disk.canonical == m.disk.canonical
  {
  }

  lemma FinishKeeps(m: Machine, v: Option<Entries>)
    requires m.status == Running && Keeps(m.disk, v) && m.disk.pending.Absent? && ReadableSynced(m.disk.canonical)
    ensures Keeps(Finish(m).disk, v) && !Finish(m).status.Thrown? && Finish(m).disk.pending.Absent?
  {
    var synced := SyncRoot(m);
    if synced.status == Running {
      RemoveBackupKeeps(synced, v);
    }
  }

  lemma PromoteAgainKeeps(m: Machine, moved: bool, v: Option<Entries>)
    requires m.status == Running && Keeps(m.disk, v) && Readable(m.disk.pending)
    ensures Keeps(PromoteAgain(m, moved).disk, v)
    ensures PromoteAgain(m, moved).status == Running ==> PromoteAgain(m, moved).disk.pending.Absent?
  {
    var renamed := PromoteRename(m);
    if renamed.status == Running {
      FinishKeeps(renamed, v);
    }
  }

  lemma PromoteSlowlyKeeps(m: Machine, v: Option<Entries>)
    requires m.status == Running && Keeps(m.disk, v) && Readable(m.disk.pending)
    ensures Keeps(PromoteSlowly(m).disk, v)
    ensures PromoteSlowly(m).status == Running ==> PromoteSlowly(m).disk.pending.Absent?
  {
    RemoveBackupKeeps(m, v);
    var cleared := RemoveBackup(m);
    if cleared.status == Running {
      if cleared.disk.canonical.Absent? {
        PromoteAgainKeeps(cleared, false, v);
      } else {
        var retired := RetireRename(cleared);
        if retired.status == Running {
          PromoteAgainKeeps(retired, true, v);
        }
      }
    }
  }

  /** No outcome of promotePending loses the pending state. */
  lemma PromotePendingKeeps(m: Machine, v: Option<Entries>)
    requires m.status == Running && Keeps(m.disk, v)
    ensures Keeps(PromotePending(m).disk, v)
    ensures PromotePending(m).status == Running ==> PromotePending(m).disk.pending.Absent?
  {
    if Readable(m.disk.pending) {
      var renamed := PromoteRename(m);
      match renamed.status
      case Running => FinishKeeps(renamed, v);
      case Thrown(true) => PromoteSlowlyKeeps(renamed.(status := Running), v);
      case _ =>
    }
  }

  lemma FillPendingLeaves(m: Machine, v: Option<Entries>, next: Entries)
    requires m.status == Running && m.disk.pending == File(Junk, false) && UniqueProfiles(next)
    ensures var f := FillPending(m, next);
      && f.disk.canonical == m.disk.canonical && f.disk.backup == m.disk.backup
      && (Keeps(m.disk, v) ==> Either(f.disk, v, next))
      && (f.status == Running ==> Keeps(f.disk, Some(next)) && Readable(f.disk.pending))
  {
    var written := WritePending(m, next);
    if written.status == Running {
      assert Keeps(m.disk, v) ==> Half(written.disk, v, next);
      var synced := SyncPending(written);
      if synced.status == Running {
        assert Keeps(synced.disk, Some(next));
      }
    }
  }

  lemma AbandonLeaves(m: Machine, created: bool, v: Option<Entries>, next: Entries)
    requires m.status.Thrown? && Either(m.disk, v, next) && (created ==> v == Older(m.disk) && OlderDurable(m.disk))
    ensures Either(Abandon(m, created).disk, v, next) && Abandon(m, created).status != Running
  {
  }

  /** A call that returns keeps the new state, whatever it found. */
  lemma CommitLeaves(m: Machine, v: Option<Entries>, next: Entries)
    requires m.status == Running && m.disk.pending.Absent? && UniqueProfiles(next)
    ensures var p := Commit(m, next);
      && (Keeps(m.disk, v) ==> Either(p.machine.disk, v, next))
      && (p.machine.status == Running ==> Keeps(p.machine.disk, Some(next)))
  {
    var file := OpenPending(m);
    match file.status
    case Crashed =>
    case Thrown(_) =>
      if Keeps(m.disk, v) {
        AbandonLeaves(file, false, v, next);
      }
    case Running =>
      FillPendingLeaves(file, v, next);
      var filled := FillPending(file, next);
      match filled.status
      case Crashed =>
      case Thrown(_) =>
        if Keeps(m.disk, v) {
          AbandonLeaves(filled, true, v, next);
        }
      case Running => PromotePendingKeeps(filled, Some(next));
  }

  lemma FinishLeavesPending(m: Machine)
    requires m.status == Running
    ensures Finish(m).disk.pending == m.disk.pending
  {
  }

  lemma PromoteAgainReturns(m: Machine, moved: bool)
    requires m.status == Running && PromoteAgain(m, moved).status == Running
    ensures PromoteAgain(m, moved).disk.pending.Absent?
  {
    hide Finish;
    if PromoteRename(m).status == Running {
      FinishLeavesPending(PromoteRename(m));
    }
  }

  lemma PromoteSlowlyReturns(m: Machine)
    requires m.status == Running && PromoteSlowly(m).status == Running
    ensures PromoteSlowly(m).disk.pending.Absent?
  {
    hide PromoteAgain;
    var cleared := RemoveBackup(m);
    if cleared.disk.canonical.Absent? {
      PromoteAgainReturns(cleared, false);
    } else {
      PromoteAgainReturns(RetireRename(cleared), true);
    }
  }

  /** A promotion that returns leaves no pending file, whatever it found. */
  lemma PromotePendingReturns(m: Machine)
    requires m.status == Running && PromotePending(m).status == Running
    ensures PromotePending(m).disk.pending.Absent?
  {
    hide Finish, PromoteSlowly;
    if Readable(m.disk.pending) {
      var renamed := PromoteRename(m);
      match renamed.status
      case Running => FinishLeavesPending(renamed);
      case _ => PromoteSlowlyReturns(renamed.(status := Running));
    }
  }

  lemma PersistLeaves(m: Machine, v: Option<Entries>, next: Entries)
    requires m.status == Running && UniqueProfiles(next)
    ensures var p := Persist(m, next);
      && (Keeps(m.disk, v) ==> Either(p.machine.disk, v, next))
      && (p.machine.status == Running ==> Keeps(p.machine.disk, Some(next)))
  {
    hide PromotePending, Commit, Either, Keeps;
    var made := Touch(m);
    match made.status
    case Crashed => OneOf(m.disk, v, next);
    case Thrown(_) => Abandoned(made, v, next);
    case Running =>
      if Keeps(m.disk, v) {
        PromotePendingKeeps(made, v);
      }
      var promoted := PromotePending(made);
      OneOf(promoted.disk, v, next);
      match promoted.status
      case Crashed =>
      case Thrown(_) => Abandoned(promoted, v, next);
      case Running =>
        PromotePendingReturns(made);
        CommitLeaves(promoted, v, next);
  }

  lemma OneOf(d: Disk, v: Option<Entries>, next: Entries)
    ensures Keeps(d, v) || Keeps(d, Some(next)) ==> Either(d, v, next)
  {
  }

  lemma Abandoned(m: Machine, v: Option<Entries>, next: Entries)
    requires m.status.Thrown?
    ensures Keeps(m.disk, v) ==> Either(Abandon(m, false).disk, v, next)
    ensures Abandon(m, false).status != Running
  {
  }

  // ---------------------------------------------------------------------
  // Main results
  // ---------------------------------------------------------------------

  predicate UnsyncedPending(d: Disk) {
    Readable(d.pending) && !d.pending.synced
  }

  /**
   * Durable atomicity of one persist: for every schedule of failures and every
   * crash point, whatever the crash makes of the files recovers exactly the
   * state before or exactly the new one, and the new one once persist returns.
   */
  lemma PersistIsAtomic(d: Disk, io: seq<Fault>, next: Entries, after: Disk)
    requires Durable(d) && UniqueProfiles(next)
    requires Image(Persist(Machine(d, io, Running), next).machine.disk, after)
    ensures Recover(after) == Recover(d) || Recover(after) == Some(next)
    ensures Persist(Machine(d, io, Running), next).machine.status == Running ==> Recover(after) == Some(next)
  {
    hide Persist, Either;
    PersistLeaves(Machine(d, io, Running), Recover(d), next);
    EitherImages(Persist(Machine(d, io, Running), next).machine.disk, Recover(d), next, after);
  }

  lemma EitherImages(d: Disk, v: Option<Entries>, next: Entries, after: Disk)
    requires Either(d, v, next) && Image(d, after)
    ensures Recover(after) == v || Recover(after) == Some(next)
    ensures Keeps(d, Some(next)) ==> Recover(after) == Some(next)
  {
    if Keeps(d, Some(next)) {
      KeepsImages(d, Some(next), after);
    } else if Keeps(d, v) {
      KeepsImages(d, v, after);
    } else {
      HalfImages(d, v, next, after);
    }
  }

  function DiskAfterPersist(d: Disk, io: seq<Fault>, next: Entries): Disk {
    Persist(Machine(d, io, Running), next).machine.disk
  }

  ghost predicate Atomic(d: Disk) {
    forall io, next, after :: UniqueProfiles(next) && Image(DiskAfterPersist(d, io, next), after) ==>
      && (Recover(after) == Recover(d) || Recover(after) == Some(next))
      && (Persist(Machine(d, io, Running), next).machine.status == Running ==> Recover(after) == Some(next))
  }

  /** Renaming an unsynced pending file over the canonical one can lose both states. */
  lemma UnsyncedPendingLosesEverything(d: Disk, next: Entries) returns (io: seq<Fault>, after: Disk)
    requires UnsyncedPending(d)
    ensures Persist(Machine(d, io, Running), next).machine.status == Crashed
    ensures Image(DiskAfterPersist(d, io, next), after)
    ensures Recover(after) == None && Recover(d).Some?
  {
    io := if d.backup.Absent? then [Fine, Fine, Fine, Crash] else [Fine, Fine, Fine, Fine, Crash];
    var made := Machine(d, io[1..], Running);
    assert Touch(Machine(d, io, Running)) == made;
    var renamed := Machine(Disk(Absent, d.pending, d.backup), io[2..], Running);
    assert made.io[1..] == io[2..];
    assert PromoteRename(made) == renamed;
    var swept := Machine(Disk(Absent, d.pending, Absent), [Crash], Running);
    assert Finish(renamed) == swept;
    assert PromotePending(made) == swept;
    assert OpenPending(swept).status == Crashed;
    after := Disk(Absent, File(Junk, true), Absent);
  }

  /** Of all disks, persist is atomic on exactly the durable ones. */
  lemma AtomicExactlyWhenDurable(d: Disk)
    ensures Atomic(d) <==> Durable(d)
  {
    hide Persist;
    if Durable(d) {
      forall io, next, after | UniqueProfiles(next) && Image(DiskAfterPersist(d, io, next), after)
        ensures Recover(after) == Recover(d) || Recover(after) == Some(next)
        ensures Persist(Machine(d, io, Running), next).machine.status == Running ==> Recover(after) == Some(next)
      {
        PersistIsAtomic(d, io, next, after);
      }
    } else if UnsyncedPending(d) {
      NotAtomic(d);
    } else {
      OlderLost(d);
    }
  }

  /** The image of an undurable older file that loses it. */
  function Losing(d: Disk): Disk {
    Disk(
      if d.pending.File? && !d.pending.synced then Absent else d.pending,
      if d.canonical.File? && !d.canonical.synced then Absent else d.canonical,
      if d.backup.File? && !d.backup.synced then Absent else d.backup)
  }

  lemma LosingLoses(d: Disk)
    requires !Readable(d.pending) && !OlderDurable(d)
    ensures Image(d, Losing(d)) && Recover(Losing(d)) != Recover(d) && Recover(d).Some?
  {
  }

  /** A crash before anything was done loses an older file that was not durable. */
  lemma OlderLost(d: Disk)
    requires !Readable(d.pending) && !OlderDurable(d)
    ensures !Atomic(d)
  {
    LosingLoses(d);
    var old_ := Recover(d).value;
    assert DiskAfterPersist(d, [Crash], old_) == d;
    assert UniqueProfiles(old_);
    assert Image(DiskAfterPersist(d, [Crash], old_), Losing(d));
  }

  lemma NotAtomic(d: Disk)
    requires UnsyncedPending(d)
    ensures !Atomic(d)
  {
    var none: Entries := [];
    var io, after := UnsyncedPendingLosesEverything(d, none);
    assert UniqueProfiles(none) && Image(DiskAfterPersist(d, io, none), after);
    assert Recover(after) != Recover(d) && Recover(after) != Some(none);
  }

  /** Such a disk arises when the fsync of a new file and its removal both fail. */
  lemma FailedSyncAndRemovalLeaveIt(next: Entries, code: bool)
    requires UniqueProfiles(next)
    ensures var d := Disk(Absent, Absent, Absent);
      var io := [Fine, Fine, Fine, Fails(code, false), Fine, Fails(code, false)];
      var m := Persist(Machine(d, io, Running), next).machine;
      m.status.Thrown? && UnsyncedPending(m.disk)
  {
    var d := Disk(Absent, Absent, Absent);
    var io := [Fine, Fine, Fine, Fails(code, false), Fine, Fails(code, false)];
    var made := Machine(d, io[1..], Running);
    assert Touch(Machine(d, io, Running)) == made;
    var file := OpenPending(made);
    assert file.io == io[2..];
    var written := WritePending(file, next);
    assert written.io == io[3..];
    var synced := SyncPending(written);
    assert synced.io == io[4..] && synced.status.Thrown?;
    assert FillPending(file, next) == synced;
  }

  /** And the next save can leave a canonical file that was not fsynced, with no pending file at all. */
  lemma PromotionLeavesUnsyncedCanonical(saved: Entries, next: Entries, code: bool)
    requires UniqueProfiles(saved)
    ensures var d := Disk(File(Saved(saved, CURRENT_VERSION), false), Absent, Absent);
      var m := Persist(Machine(d, [Fine, Fine, Fine, Fails(code, false)], Running), next).machine;
      m.status.Thrown? && m.disk == Disk(Absent, File(Saved(saved, CURRENT_VERSION), false), Absent) && !Durable(m.disk)
  {
    var d := Disk(File(Saved(saved, CURRENT_VERSION), false), Absent, Absent);
    var io := [Fine, Fine, Fine, Fails(code, false)];
    var made := Machine(d, io[1..], Running);
    assert Touch(Machine(d, io, Running)) == made;
    var promoted := PromotePending(made);
    assert promoted.io == io[3..] && promoted.disk == Disk(Absent, d.pending, Absent);
    assert OpenPending(promoted).status.Thrown?;
  }

  // ---------------------------------------------------------------------
  // Cold starts
  // ---------------------------------------------------------------------

  /** A disk all of whose images recover v. */
  predicate Holds(d: Disk, v: Option<Entries>) {
    Keeps(d, v) || (v.Some? && Half(d, v, v.value))
  }

  lemma HoldsImages(d: Disk, v: Option<Entries>, after: Disk)
    requires Holds(d, v) && Image(d, after)
    ensures Recover(after) == v
  {
    if Keeps(d, v) {
      KeepsImages(d, v, after);
    } else {
      HalfImages(d, v, v.value, after);
    }
  }

  lemma NormalizeHolds(m: Machine, from: Slot, issue: LoadIssue, v: Option<Entries>)
    requires m.status == Running && Keeps(m.disk, v) && Readable(from) && v == Parsed(from)
    ensures var l := Normalize(m, from, issue);
      && Holds(l.machine.disk, v)
      && (l.machine.status == Running ==> Keeps(l.machine.disk, v))
  {
    PersistLeaves(m, v, from.content.entries);
  }

  /** The file a cold start falls back to. */
  function Cleared(m: Machine): Machine
    requires m.status == Running
  {
    if m.disk.pending.File? then RemovePending(m) else m
  }

  lemma ReadStateHolds(d: Disk, io: seq<Fault>)
    requires Durable(d)
    ensures Holds(ReadState(Machine(d, io, Running)).machine.disk, Recover(d))
  {
    var m := Machine(d, io, Running);
    var v := Recover(d);
    if Readable(d.pending) {
      NormalizeHolds(m, d.pending, NoIssue, v);
      var n := Normalize(m, d.pending, NoIssue);
      if n.machine.status == Running {
        PromotePendingKeeps(n.machine, v);
      }
    } else {
      var removed := Cleared(m);
      if removed.status == Running && Readable(removed.disk.canonical) {
        NormalizeHolds(removed, removed.disk.canonical, if d.pending.File? then PersistenceFailed else NoIssue, v);
      }
    }
  }

  /** On every disk, a cold start that is not cut short reads exactly the recoverable state. */
  lemma ReadStateReads(d: Disk, io: seq<Fault>)
    ensures var l := ReadState(Machine(d, io, Running));
      l.machine.status != Crashed ==> l.entries == if Recover(d).Some? then Recover(d).value else []
  {
    hide Persist, PromotePending;
  }

  /** Whatever fails while it promotes or rewrites files, and whatever a crash makes of them, nothing is lost. */
  ghost predicate Preserved(d: Disk) {
    forall io, after :: Image(ReadState(Machine(d, io, Running)).machine.disk, after) ==> Recover(after) == Recover(d)
  }

  /** Of all disks, a cold start preserves the state of exactly the durable ones. */
  lemma ReadStatePreservesExactly(d: Disk)
    ensures Preserved(d) <==> Durable(d)
  {
    hide ReadState;
    if Durable(d) {
      forall io, after | Image(ReadState(Machine(d, io, Running)).machine.disk, after)
        ensures Recover(after) == Recover(d)
      {
        ReadStateHolds(d, io);
        HoldsImages(ReadState(Machine(d, io, Running)).machine.disk, Recover(d), after);
      }
    } else if UnsyncedPending(d) {
      var io, after := ColdStartLoses(d);
    } else {
      LosingLoses(d);
      CrashedColdStart(d);
      assert Image(ReadState(Machine(d, [Crash], Running)).machine.disk, Losing(d));
    }
  }

  lemma ColdStartLoses(d: Disk) returns (io: seq<Fault>, after: Disk)
    requires UnsyncedPending(d)
    ensures Image(ReadState(Machine(d, io, Running)).machine.disk, after)
    ensures Recover(after) == None && Recover(d).Some?
  {
    if d.pending.content.version == CURRENT_VERSION {
      io, after := [], Disk(Absent, File(Junk, true), Absent);
      var renamed := Machine(Disk(Absent, d.pending, d.backup), [], Running);
      assert PromotePending(Machine(d, [], Running)) == Finish(renamed);
    } else {
      io, after := UnsyncedPendingLosesEverything(d, d.pending.content.entries);
    }
  }

  lemma CrashedColdStart(d: Disk)
    requires !Readable(d.pending)
    ensures ReadState(Machine(d, [Crash], Running)).machine.disk == d
  {
  }

  // ---------------------------------------------------------------------
  // What leaves a disk durable
  // ---------------------------------------------------------------------

  function Outcome(io: seq<Fault>, k: nat): Fault {
    if k < |io| then io[k] else Fine
  }

  /** From the close of a failed save on: the new file is not removed. */
  predicate Unremoved(io: seq<Fault>, k: nat) {
    Outcome(io, k) == Crash || Outcome(io, k + 1) != Fine
  }

  /** From the write on: all bytes were written, but not fsynced, and not removed again. */
  predicate Strands(io: seq<Fault>) {
    match Outcome(io, 0)
    case Crash => false
    case Fails(_, torn) => !torn && Unremoved(io, 1)
    case Fine =>
      match Outcome(io, 1)
      case Fine => false
      case Crash => true
      case Fails(_, _) => Unremoved(io, 2)
  }

  /** The schedule from the write of a save on, if the save gets there. */
  function WriteSchedule(m: Machine): Option<seq<Fault>>
    requires m.status == Running
  {
    var made := Touch(m);
    if made.status != Running then None
    else
      var promoted := PromotePending(made);
      if promoted.status != Running then None
      else
        var file := OpenPending(promoted);
        if file.status != Running then None else Some(file.io)
  }

  /** The save writes its bytes, but neither the fsync nor the removal of the file takes place. */
  predicate StrandsBytes(m: Machine)
    requires m.status == Running
  {
    WriteSchedule(m).Some? && Strands(WriteSchedule(m).value)
  }

  /** A failed save with an unsynced file: durable exactly if the file is removed. */
  lemma AbandonStrandsExactly(m: Machine)
    requires m.status.Thrown? && UnsyncedPending(m.disk) && OlderDurable(m.disk)
    ensures var d := Abandon(m, true).disk;
      && (Durable(d) <==> !Unremoved(m.io, 0))
      && (!Durable(d) ==> UnsyncedPending(d))
  {
    assert Rest(m) == [] || (forall k :: 0 <= k < |Rest(m)| ==> Rest(m)[k] == m.io[k + 1]);
  }

  lemma AbandonStaysDurable(m: Machine)
    requires m.status.Thrown? && Durable(m.disk) && OlderDurable(m.disk)
    ensures Durable(Abandon(m, true).disk)
  {
  }

  lemma UnremovedShifts(io: seq<Fault>, n: nat)
    requires n <= |io|
    ensures Unremoved(io[n..], 0) == Unremoved(io, n)
  {
  }

  lemma UnremovedBeyond(io: seq<Fault>, n: nat)
    requires |io| <= n
    ensures Unremoved(io, n) == Unremoved([], 0)
  {
  }

  lemma FillStrandsExactly(m: Machine, next: Entries)
    requires m.status == Running && m.disk.pending == File(Junk, false) && OlderDurable(m.disk) && UniqueProfiles(next)
    ensures var f := FillPending(m, next);
      var d := if f.status.Thrown? then Abandon(f, true).disk else f.disk;
      && (Durable(d) <==> !Strands(m.io))
      && (!Durable(d) ==> UnsyncedPending(d))
  {
    hide Abandon, Unremoved;
    var written := WritePending(m, next);
    assert written.io == if |m.io| >= 1 then m.io[1..] else [];
    if |m.io| >= 1 { UnremovedShifts(m.io, 1); } else { UnremovedBeyond(m.io, 1); }
    if |m.io| >= 2 { UnremovedShifts(m.io, 2); } else { UnremovedBeyond(m.io, 2); }
    if written.status.Thrown? {
      Abandoning(written);
    } else if written.status == Running {
      var synced := SyncPending(written);
      assert synced.io == if |m.io| >= 2 then m.io[2..] else [];
      if synced.status.Thrown? {
        Abandoning(synced);
      } else if synced.status == Running {
        FilledIsDurable(synced);
      }
    }
  }

  lemma Abandoning(m: Machine)
    requires m.status.Thrown? && OlderDurable(m.disk)
    ensures UnsyncedPending(m.disk) ==>
      var d := Abandon(m, true).disk; (Durable(d) <==> !Unremoved(m.io, 0)) && (!Durable(d) ==> UnsyncedPending(d))
    ensures Durable(m.disk) ==> Durable(Abandon(m, true).disk)
  {
    if UnsyncedPending(m.disk) {
      AbandonStrandsExactly(m);
    }
    if Durable(m.disk) {
      AbandonStaysDurable(m);
    }
  }

  /** Once fsynced, neither a failed close nor a failed chmod strands anything. */
  lemma FilledIsDurable(m: Machine)
    requires m.status == Running && Durable(m.disk) && OlderDurable(m.disk)
    ensures var closed := Touch(m); var f := if closed.status == Running then Touch(closed) else closed;
      f.disk == m.disk && (f.status.Thrown? ==> Durable(Abandon(f, true).disk))
  {
    var closed := Touch(m);
    var f := if closed.status == Running then Touch(closed) else closed;
    if f.status.Thrown? {
      AbandonStaysDurable(f);
    }
  }

  /** From a durable disk, a save leaves a durable one exactly unless it strands its bytes. */
  lemma PersistDurableExactly(m: Machine, next: Entries)
    requires m.status == Running && Durable(m.disk) && UniqueProfiles(next)
    ensures Durable(Persist(m, next).machine.disk) <==> !StrandsBytes(m)
    ensures !Durable(Persist(m, next).machine.disk) ==> UnsyncedPending(Persist(m, next).machine.disk)
  {
    hide PromotePending, FillPending, Strands, Durable, UnsyncedPending;
    var made := Touch(m);
    if made.status == Running {
      PromotePendingKeeps(made, Recover(m.disk));
      var promoted := PromotePending(made);
      if promoted.status == Running {
        CommitDurableExactly(promoted, next);
      }
    }
  }

  lemma CommitDurableExactly(m: Machine, next: Entries)
    requires m.status == Running && Durable(m.disk) && m.disk.pending.Absent? && UniqueProfiles(next)
    ensures var d := Commit(m, next).machine.disk;
      && (Durable(d) <==> !(OpenPending(m).status == Running && Strands(OpenPending(m).io)))
      && (!Durable(d) ==> UnsyncedPending(d))
  {
    hide PromotePending, FillPending, Strands;
    var file := OpenPending(m);
    if file.status == Running {
      FillStrandsExactly(file, next);
      FillPendingLeaves(file, Older(m.disk), next);
      var filled := FillPending(file, next);
      if filled.status == Running {
        PromotePendingKeeps(filled, Some(next));
      }
    }
  }

  // ---------------------------------------------------------------------
  // Whole lifetimes
  // ---------------------------------------------------------------------

  /** A save, a cold start, or a loss of power that leaves one image of the files. */
  datatype Episode = Save(next: Entries, io: seq<Fault>) | ColdStart(io: seq<Fault>) | PowerLoss(after: Disk)

  function Replay(d: Disk, e: Episode): Machine {
    match e
    case Save(next, io) => Persist(Machine(d, io, Running), next).machine
    case ColdStart(io) => ReadState(Machine(d, io, Running)).machine
    case PowerLoss(after) => Machine(after, [], Running)
  }

  /** The states saved are ledgers, and a loss of power leaves an image of what was there. */
  predicate Legal(d: Disk, e: Episode) {
    match e
    case Save(next, _) => UniqueProfiles(next)
    case ColdStart(_) => true
    case PowerLoss(after) => Image(d, after)
  }

  function FinalDisk(d: Disk, es: seq<Episode>): Disk {
    if es == [] then d else Replay(FinalDisk(d, es[..|es| - 1]), es[|es| - 1]).disk
  }

  predicate AllLegal(d: Disk, es: seq<Episode>) {
    es == [] || (AllLegal(d, es[..|es| - 1]) && Legal(FinalDisk(d, es[..|es| - 1]), es[|es| - 1]))
  }

  /** A cold start that finds a file of an older version saves it again, from here. */
  function Rewrite(m: Machine): Option<Machine>
    requires m.status == Running
  {
    if Readable(m.disk.pending) then
      if m.disk.pending.content.version == CURRENT_VERSION then None else Some(m)
    else
      var cleared := Cleared(m);
      if cleared.status == Running && Readable(cleared.disk.canonical)
         && cleared.disk.canonical.content.version != CURRENT_VERSION
      then Some(cleared)
      else None
  }

  /** The episode saves, and strands the bytes it wrote. */
  predicate Unlucky(d: Disk, e: Episode) {
    match e
    case Save(_, io) => StrandsBytes(Machine(d, io, Running))
    case ColdStart(io) =>
      var m := Machine(d, io, Running);
      Rewrite(m).Some? && Rewrite(m).value.status == Running && StrandsBytes(Rewrite(m).value)
    case PowerLoss(_) => false
  }

  lemma ColdStartDurableExactly(d: Disk, io: seq<Fault>)
    requires Durable(d)
    ensures var t := ReadState(Machine(d, io, Running)).machine.disk;
      (Durable(t) <==> !Unlucky(d, ColdStart(io))) && (!Durable(t) ==> UnsyncedPending(t))
  {
    hide Persist, PromotePending, StrandsBytes;
    var m := Machine(d, io, Running);
    if Readable(d.pending) {
      var v := d.pending.content.entries;
      if d.pending.content.version != CURRENT_VERSION {
        PersistDurableExactly(m, v);
      }
      var n := Normalize(m, d.pending, NoIssue);
      if n.machine.status == Running {
        PersistLeaves(m, Recover(d), v);
        PromotePendingKeeps(n.machine, Recover(n.machine.disk));
      }
    } else {
      var cleared := Cleared(m);
      if cleared.status == Running && Readable(cleared.disk.canonical) && cleared.disk.canonical.content.version != CURRENT_VERSION {
        PersistDurableExactly(cleared, cleared.disk.canonical.content.entries);
      }
    }
  }

  /** From a durable disk, an episode leaves a durable one exactly unless it is unlucky. */
  lemma EpisodeDurableExactly(d: Disk, e: Episode)
    requires Durable(d) && Legal(d, e)
    ensures Durable(Replay(d, e).disk) <==> !Unlucky(d, e)
    ensures Unlucky(d, e) ==> UnsyncedPending(Replay(d, e).disk)
  {
    hide Persist, ReadState, StrandsBytes;
    match e
    case Save(next, io) => PersistDurableExactly(Machine(d, io, Running), next);
    case ColdStart(io) => ColdStartDurableExactly(d, io);
    case PowerLoss(after) =>
  }

  /** An unlucky save, or an unlucky cold start, is the last thing that happens before the power fails. */
  predicate Careful(d: Disk, es: seq<Episode>) {
    forall i :: 0 <= i < |es| - 1 && Unlucky(FinalDisk(d, es[..i]), es[i]) ==> es[i + 1].PowerLoss?
  }

  /** The last state whose save returned, and every state whose save was tried after it. */
  function Candidates(d: Disk, es: seq<Episode>): set<Option<Entries>> {
    if es == [] then {Recover(d)}
    else
      var before := Candidates(d, es[..|es| - 1]);
      var last := es[|es| - 1];
      if !last.Save? then before
      else if Replay(FinalDisk(d, es[..|es| - 1]), last).status == Running then {Some(last.next)}
      else before + {Some(last.next)}
  }

  /** The image that loses nothing. */
  function Flushed(s: Slot): Slot {
    if s.File? then s.(synced := true) else s
  }

  lemma FlushedImage(d: Disk)
    ensures var f := Disk(Flushed(d.pending), Flushed(d.canonical), Flushed(d.backup));
      Image(d, f) && Recover(f) == Recover(d)
  {
  }

  lemma ImageIsDurable(d: Disk, after: Disk)
    requires Image(d, after)
    ensures Durable(after) && forall later :: Image(after, later) ==> later == after
  {
  }

  lemma CarefulBefore(d: Disk, es: seq<Episode>)
    requires es != [] && Careful(d, es)
    ensures Careful(d, es[..|es| - 1])
    ensures |es| >= 2 && !es[|es| - 1].PowerLoss? ==> !Unlucky(FinalDisk(d, es[..|es| - 2]), es[|es| - 2])
  {
    hide Unlucky, FinalDisk;
    var before := es[..|es| - 1];
    forall i | 0 <= i < |before| - 1 && Unlucky(FinalDisk(d, before[..i]), before[i])
      ensures before[i + 1].PowerLoss?
    {
      assert before[..i] == es[..i];
    }
    if |es| >= 2 {
      assert es[|es| - 2 + 1] == es[|es| - 1];
    }
  }

  /** Before anything but a loss of power the disk is durable. */
  lemma {:induction false} CarefulIsDurable(d: Disk, es: seq<Episode>)
    requires Durable(d) && AllLegal(d, es) && Careful(d, es)
    ensures es == [] || !Unlucky(FinalDisk(d, es[..|es| - 1]), es[|es| - 1]) ==> Durable(FinalDisk(d, es))
  {
    hide Durable, Unlucky, Replay, Image;
    if es != [] {
      var before := es[..|es| - 1];
      CarefulBefore(d, es);
      CarefulIsDurable(d, before);
      if es[|es| - 1].PowerLoss? {
        PowerLossIsDurable(FinalDisk(d, before), es[|es| - 1]);
      } else {
        assert before != [] ==> before[..|before| - 1] == es[..|es| - 2];
        EpisodeDurableExactly(FinalDisk(d, before), es[|es| - 1]);
      }
    }
  }

  lemma PowerLossIsDurable(d: Disk, e: Episode)
    requires e.PowerLoss? && Legal(d, e)
    ensures Durable(Replay(d, e).disk)
  {
    ImageIsDurable(d, e.after);
  }

  /**
   * Over any lifetime of saves, kills, losses of power and cold starts in which
   * no stranded file outlives its save, what can be recovered is the last state
   * whose save returned or one tried later: never an older one, never a mixture,
   * never nothing.
   */
  lemma {:induction false} LifetimeNeverLosesState(d: Disk, es: seq<Episode>, after: Disk)
    requires Durable(d) && AllLegal(d, es) && Careful(d, es) && Image(FinalDisk(d, es), after)
    ensures Recover(after) in Candidates(d, es)
  {
    hide Durable, Unlucky, Persist, ReadState, Careful, Recover;
    if es == [] {
      DurableImages(d, after);
    } else {
      var before := FinalDisk(d, es[..|es| - 1]);
      CarefulBefore(d, es);
      match es[|es| - 1]
      case PowerLoss(lost) =>
        ImageIsDurable(before, lost);
        LifetimeNeverLosesState(d, es[..|es| - 1], lost);
      case _ =>
        FlushedImage(before);
        LifetimeNeverLosesState(d, es[..|es| - 1],
          Disk(Flushed(before.pending), Flushed(before.canonical), Flushed(before.backup)));
        CarefulIsDurable(d, es[..|es| - 1]);
        assert |es| >= 2 ==> es[..|es| - 1][..|es| - 2] == es[..|es| - 2];
        EpisodeRecovers(before, es[|es| - 1], after);
    }
  }

  lemma DurableImages(d: Disk, after: Disk)
    requires Durable(d) && Image(d, after)
    ensures Recover(after) == Recover(d)
  {
    KeepsImages(d, Recover(d), after);
  }

  lemma EpisodeRecovers(d: Disk, e: Episode, after: Disk)
    requires Durable(d) && Legal(d, e) && !e.PowerLoss? && Image(Replay(d, e).disk, after)
    ensures Recover(after) == Recover(d) || (e.Save? && Recover(after) == Some(e.next))
    ensures e.Save? && Replay(d, e).status == Running ==> Recover(after) == Some(e.next)
  {
    hide Durable, Persist, ReadState, Recover;
    match e
    case Save(next, io) => PersistIsAtomic(d, io, next, after);
    case ColdStart(io) =>
      ReadStateHolds(d, io);
      HoldsImages(ReadState(Machine(d, io, Running)).machine.disk, Recover(d), after);
  }

  /** And no more can be asked: after an unlucky episode one save more and a loss of power can lose every state. */
  lemma LosesNothingExactlyWhenLucky(d: Disk, e: Episode)
    requires Durable(d) && Recover(d).Some? && Legal(d, e) && !e.PowerLoss?
    ensures !Unlucky(d, e) <==>
      forall f: Episode, after :: f.Save? && AllLegal(d, [e, f]) && Image(FinalDisk(d, [e, f]), after) ==>
        Recover(after) in Candidates(d, [e, f])
  {
    hide Unlucky, Durable, Replay, Recover;
    forall f: Episode
      ensures FinalDisk(d, [e]) == Replay(d, e).disk && AllLegal(d, [e])
      ensures FinalDisk(d, [e, f]) == Replay(Replay(d, e).disk, f).disk
      ensures AllLegal(d, [e, f]) <==> Legal(Replay(d, e).disk, f)
    {
      TwoEpisodes(d, e, f);
    }
    if Unlucky(d, e) {
      EpisodeDurableExactly(d, e);
      var none: Entries := [];
      var io, after := UnsyncedPendingLosesEverything(Replay(d, e).disk, none);
      var f := Save(none, io);
      TwoCandidates(d, e, f);
      assert Replay(Replay(d, e).disk, f).disk == DiskAfterPersist(Replay(d, e).disk, io, none) by { SaveReplays(Replay(d, e).disk, f); }
      assert f.Save? && AllLegal(d, [e, f]) && Image(FinalDisk(d, [e, f]), after);
    } else {
      forall f: Episode, after | f.Save? && AllLegal(d, [e, f]) && Image(FinalDisk(d, [e, f]), after)
        ensures Recover(after) in Candidates(d, [e, f])
      {
        assert [e, f][..0] == [] && FinalDisk(d, []) == d;
        LifetimeNeverLosesState(d, [e, f], after);
      }
    }
  }

  lemma SaveReplays(d: Disk, e: Episode)
    requires e.Save?
    ensures Replay(d, e).disk == DiskAfterPersist(d, e.io, e.next)
  {
  }

  lemma TwoEpisodes(d: Disk, e: Episode, f: Episode)
    requires Legal(d, e)
    ensures FinalDisk(d, [e]) == Replay(d, e).disk && AllLegal(d, [e])
    ensures FinalDisk(d, [e, f]) == Replay(Replay(d, e).disk, f).disk
    ensures AllLegal(d, [e, f]) <==> Legal(Replay(d, e).disk, f)
  {
    hide Replay, Legal;
    assert [e][..0] == [] && [e, f][..1] == [e];
    assert FinalDisk(d, []) == d && AllLegal(d, []);
  }

  lemma TwoCandidates(d: Disk, e: Episode, f: Episode)
    requires Recover(d).Some?
    ensures None !in Candidates(d, [e, f])
  {
    hide Replay, FinalDisk, Recover;
    assert [e][..0] == [] && [e, f][..1] == [e];
    assert Candidates(d, []) == {Recover(d)};
    assert None !in Candidates(d, [e]);
  }
}
