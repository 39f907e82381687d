/** When a save, a promotion and a cold start of the ledger's files get to their end. */
module OwnershipProgress {
  import opened OwnershipFiles
  import opened Wrappers

  function Drop(io: seq<Fault>, n: nat): seq<Fault> {
    if n <= |io| then io[n..] else []
  }

  lemma DropOutcome(io: seq<Fault>, n: nat)
    ensures forall k: nat {:trigger Outcome(Drop(io, n), k)} :: Outcome(Drop(io, n), k) == Outcome(io, n + k)
  {
  }

  lemma DropTwice(io: seq<Fault>, n: nat, k: nat)
    ensures Drop(Drop(io, n), k) == Drop(io, n + k)
  {
  }

  lemma NextOf(m: Machine)
    ensures Next(m) == Outcome(m.io, 0) && Rest(m) == Drop(m.io, 1)
  {
  }

  // ---------------------------------------------------------------------
  // Promotions
  // ---------------------------------------------------------------------

  /** The sync of the directory and the removal of a backup, from operation k on, are not cut short. */
  predicate SweepSurvives(backup: Slot, io: seq<Fault>, k: nat) {
    Outcome(io, k) != Crash && (backup.File? ==> Outcome(io, k + 1) != Crash)
  }

  function OpsFor(s: Slot): nat {
    if s.File? then 1 else 0
  }

  /** The disk when the slow way has tried to remove the backup. */
  function Swept(d: Disk, io: seq<Fault>, k: nat): Disk {
    d.(backup := if d.backup.File? && Outcome(io, k) == Fine then Absent else d.backup)
  }

  /** The canonical file has to move aside, if there is one, and then the rename has to work. */
  predicate AsideReturns(d: Disk, io: seq<Fault>, k: nat) {
    var c := OpsFor(d.canonical);
    && (d.canonical.File? ==> Outcome(io, k) == Fine)
    && Outcome(io, k + c) == Fine
    && SweepSurvives(if d.canonical.File? then d.canonical else d.backup, io, k + c + 1)
  }

  predicate SlowWayReturns(d: Disk, io: seq<Fault>, k: nat) {
    && (d.backup.File? ==> Outcome(io, k) != Crash)
    && AsideReturns(Swept(d, io, k), io, k + OpsFor(d.backup))
  }

  /** There is nothing to promote; or a readable file, and its rename works at once or, after a retryable failure, the slow way. */
  predicate PromotionReturns(d: Disk, io: seq<Fault>) {
    d.pending.Absent? ||
    (Readable(d.pending) &&
     match Outcome(io, 0)
     case Fine => SweepSurvives(d.backup, io, 1)
     case Fails(retryable, _) => retryable && SlowWayReturns(d, io, 1)
     case Crash => false)
  }

  lemma FinishReturns(m: Machine)
    requires m.status == Running
    ensures Finish(m).status == Running <==> SweepSurvives(m.disk.backup, m.io, 0)
    ensures Finish(m).status == Running || Finish(m).status == Crashed
  {
    NextOf(m);
    var synced := SyncRoot(m);
    if synced.status == Running {
      DropOutcome(m.io, 1);
      NextOf(synced);
    }
  }

  lemma PromoteAgainExactly(m: Machine, moved: bool)
    requires m.status == Running
    ensures PromoteAgain(m, moved).status == Running <==>
      Outcome(m.io, 0) == Fine && SweepSurvives(m.disk.backup, m.io, 1)
    ensures PromoteAgain(m, moved).status == Crashed <==>
      match Outcome(m.io, 0)
      case Fine => !SweepSurvives(m.disk.backup, m.io, 1)
      case Crash => true
      case Fails(_, _) => moved && m.disk.canonical.Absent? && Outcome(m.io, 1) == Crash
  {
    hide Finish;
    NextOf(m);
    DropOutcome(m.io, 1);
    var renamed := PromoteRename(m);
    if renamed.status == Running {
      FinishReturns(renamed);
    } else {
      NextOf(renamed.(status := Running));
    }
  }

  /** A rename is cut short, or the sweep behind it, or the restore of the file that moved aside. */
  predicate AsideCut(d: Disk, io: seq<Fault>, k: nat) {
    var c := OpsFor(d.canonical);
    || (d.canonical.File? && Outcome(io, k) == Crash)
    || ((d.canonical.File? ==> Outcome(io, k) == Fine)
        && match Outcome(io, k + c)
           case Fine => !SweepSurvives(if d.canonical.File? then d.canonical else d.backup, io, k + c + 1)
           case Crash => true
           case Fails(_, _) => d.canonical.File? && Outcome(io, k + c + 1) == Crash)
  }

  predicate SlowWayCut(d: Disk, io: seq<Fault>, k: nat) {
    (d.backup.File? && Outcome(io, k) == Crash) || AsideCut(Swept(d, io, k), io, k + OpsFor(d.backup))
  }

  predicate PromotionCut(d: Disk, io: seq<Fault>) {
    Readable(d.pending) &&
    match Outcome(io, 0)
    case Fine => !SweepSurvives(d.backup, io, 1)
    case Fails(retryable, _) => retryable && SlowWayCut(d, io, 1)
    case Crash => true
  }

  lemma SweptBackup(m: Machine)
    requires m.status == Running
    ensures
      var cleared := RemoveBackup(m);
      && (cleared.status == Crashed <==> m.disk.backup.File? && Outcome(m.io, 0) == Crash)
      && cleared.io == Drop(m.io, OpsFor(m.disk.backup))
      && (cleared.status != Crashed ==>
            && cleared.status == Running
            && cleared.disk == m.disk.(backup := if m.disk.backup.File? && Outcome(m.io, 0) == Fine then Absent else m.disk.backup))
  {
    NextOf(m);
  }

  /** The slow way once the backup is out of the way or stays for good. */
  function MoveAside(m: Machine): Machine
    requires m.status == Running
  {
    if m.disk.canonical.Absent? then PromoteAgain(m, false)
    else if RetireRename(m).status == Running then PromoteAgain(RetireRename(m), true)
    else RetireRename(m)
  }

  lemma MoveAsideExactly(m: Machine)
    requires m.status == Running
    ensures MoveAside(m).status == Running <==> AsideReturns(m.disk, m.io, 0)
    ensures MoveAside(m).status == Crashed <==> AsideCut(m.disk, m.io, 0)
  {
    hide PromoteAgain;
    if m.disk.canonical.Absent? {
      PromoteAgainExactly(m, false);
    } else {
      NextOf(m);
      DropOutcome(m.io, 1);
      if RetireRename(m).status == Running {
        PromoteAgainExactly(RetireRename(m), true);
      }
    }
  }

  lemma SweepShifts(backup: Slot, io: seq<Fault>, n: nat, k: nat)
    ensures SweepSurvives(backup, Drop(io, n), k) == SweepSurvives(backup, io, n + k)
  {
    DropOutcome(io, n);
    assert Outcome(Drop(io, n), k) == Outcome(io, n + k) && Outcome(Drop(io, n), k + 1) == Outcome(io, n + (k + 1));
  }

  lemma AsideShifts(d: Disk, io: seq<Fault>, n: nat)
    ensures AsideReturns(d, Drop(io, n), 0) == AsideReturns(d, io, n)
    ensures AsideCut(d, Drop(io, n), 0) == AsideCut(d, io, n)
  {
    hide SweepSurvives, Outcome;
    var c := OpsFor(d.canonical);
    DropOutcome(io, n);
    SweepShifts(if d.canonical.File? then d.canonical else d.backup, io, n, c + 1);
    assert Outcome(Drop(io, n), 0) == Outcome(io, n) && Outcome(Drop(io, n), c) == Outcome(io, n + c);
    assert Outcome(Drop(io, n), c + 1) == Outcome(io, n + (c + 1));
  }

  lemma SlowWayExactly(m: Machine)
    requires m.status == Running
    ensures PromoteSlowly(m).status == Running <==> SlowWayReturns(m.disk, m.io, 0)
    ensures PromoteSlowly(m).status == Crashed <==> SlowWayCut(m.disk, m.io, 0)
  {
    hide PromoteAgain, RemoveBackup, AsideReturns, AsideCut;
    SweptBackup(m);
    var cleared := RemoveBackup(m);
    if cleared.status == Running {
      assert cleared.disk == Swept(m.disk, m.io, 0);
      MoveAsideExactly(cleared);
      AsideShifts(cleared.disk, m.io, OpsFor(m.disk.backup));
    }
  }

  lemma SlowWayShifts(d: Disk, io: seq<Fault>, n: nat)
    ensures SlowWayReturns(d, Drop(io, n), 0) == SlowWayReturns(d, io, n)
    ensures SlowWayCut(d, Drop(io, n), 0) == SlowWayCut(d, io, n)
  {
    hide AsideReturns, AsideCut, Outcome;
    var b := OpsFor(d.backup);
    DropOutcome(io, n);
    assert Outcome(Drop(io, n), 0) == Outcome(io, n);
    DropTwice(io, n, b);
    AsideShifts(Swept(d, io, n), Drop(io, n), b);
    AsideShifts(Swept(d, io, n), io, n + b);
  }

  /** A promotion returns, and is cut short, on exactly those schedules. */
  lemma PromotionReturnsExactly(m: Machine)
    requires m.status == Running
    ensures PromotePending(m).status == Running <==> PromotionReturns(m.disk, m.io)
    ensures PromotePending(m).status == Crashed <==> PromotionCut(m.disk, m.io)
  {
    hide Finish, PromoteSlowly, SlowWayReturns, SlowWayCut;
    if Readable(m.disk.pending) {
      NextOf(m);
      DropOutcome(m.io, 1);
      var renamed := PromoteRename(m);
      match renamed.status
      case Running => FinishReturns(renamed);
      case Thrown(true) =>
        SlowWayExactly(renamed.(status := Running));
        SlowWayShifts(m.disk, m.io, 1);
      case _ =>
    }
  }

  // ---------------------------------------------------------------------
  // Saves
  // ---------------------------------------------------------------------

  /** Open, write, fsync, close and chmod of the new file work. */
  predicate FileIsMade(io: seq<Fault>) {
    forall k :: 0 <= k < 5 ==> Outcome(io, k) == Fine
  }

  lemma FillExactly(m: Machine, next: Entries)
    requires m.status == Running && m.disk.pending.File?
    ensures
      var f := FillPending(m, next);
      && (f.status == Running <==> forall k :: 0 <= k < 4 ==> Outcome(m.io, k) == Fine)
      && (f.status == Running ==>
            f.disk == m.disk.(pending := File(Saved(next, CURRENT_VERSION), true)) && f.io == Drop(m.io, 4))
  {
    NextOf(m);
    DropOutcome(m.io, 1);
    var written := WritePending(m, next);
    if written.status == Running {
      NextOf(written);
      DropTwice(m.io, 1, 1);
      DropOutcome(m.io, 2);
      var synced := SyncPending(written);
      if synced.status == Running {
        NextOf(synced);
        DropTwice(m.io, 2, 1);
        DropOutcome(m.io, 3);
        var closed := Touch(synced);
        if closed.status == Running {
          NextOf(closed);
          DropTwice(m.io, 3, 1);
        }
      }
    }
    assert Outcome(m.io, 0) == Next(m);
  }

  /** The disk with the new file on it, fsynced and not yet promoted. */
  function WithNew(d: Disk, next: Entries): Disk {
    d.(pending := File(Saved(next, CURRENT_VERSION), true))
  }

  lemma CommitExactly(m: Machine, next: Entries)
    requires m.status == Running && m.disk.pending.Absent?
    ensures
      var p := Commit(m, next);
      && (p.machine.status == Running <==> FileIsMade(m.io) && !PromotionCut(WithNew(m.disk, next), Drop(m.io, 5)))
      && (p.machine.status == Running ==>
            (p.loadIssue <==> !PromotionReturns(WithNew(m.disk, next), Drop(m.io, 5))))
  {
    hide FillPending, PromotePending, PromotionReturns, PromotionCut, Abandon;
    NextOf(m);
    DropOutcome(m.io, 1);
    var file := OpenPending(m);
    if file.status == Running {
      FillExactly(file, next);
      DropTwice(m.io, 1, 4);
      Five(m.io);
      var filled := FillPending(file, next);
      if filled.status == Running {
        assert filled.disk == WithNew(m.disk, next);
        PromotionReturnsExactly(filled);
      } else {
        AbandonFails(filled, true);
      }
    } else {
      AbandonFails(file, false);
      assert Outcome(m.io, 0) != Fine;
    }
  }

  lemma Five(io: seq<Fault>)
    ensures FileIsMade(io) <==> Outcome(io, 0) == Fine && forall k :: 0 <= k < 4 ==> Outcome(Drop(io, 1), k) == Fine
  {
    DropOutcome(io, 1);
    if Outcome(io, 0) == Fine && forall k :: 0 <= k < 4 ==> Outcome(Drop(io, 1), k) == Fine {
      forall k | 0 <= k < 5
        ensures Outcome(io, k) == Fine
      {
        assert k > 0 ==> Outcome(Drop(io, 1), k - 1) == Outcome(io, k);
      }
    }
  }

  lemma AbandonFails(m: Machine, created: bool)
    ensures m.status.Thrown? ==> Abandon(m, created).status != Running
  {
  }

  /** The operations left when the new file is made, and the disk then: after mkdir and the promotion that was owed. */
  function Promoted(d: Disk, io: seq<Fault>): Machine {
    PromotePending(Machine(d, Drop(io, 1), Running))
  }

  /**
   * A save returns exactly if the directory can be made, the promotion that was
   * owed returns, every operation on the new file works, and nothing cuts the last
   * promotion short; whether that one is owed now is exactly what the call reports.
   */
  lemma PersistReturnsExactly(d: Disk, io: seq<Fault>, next: Entries)
    ensures
      var p := Persist(Machine(d, io, Running), next);
      var promoted := Promoted(d, io);
      var made := WithNew(promoted.disk, next);
      && (p.machine.status == Running <==>
            && Outcome(io, 0) == Fine && PromotionReturns(d, Drop(io, 1))
            && FileIsMade(promoted.io) && !PromotionCut(made, Drop(promoted.io, 5)))
      && (p.machine.status == Running ==> (p.loadIssue <==> !PromotionReturns(made, Drop(promoted.io, 5))))
  {
    hide PromotePending, PromotionReturns, PromotionCut, Commit, FileIsMade, Abandon;
    var m := Machine(d, io, Running);
    NextOf(m);
    var made := Touch(m);
    if made.status == Running {
      PromotionReturnsExactly(made);
      var promoted := PromotePending(made);
      if promoted.status == Running {
        PromotePendingReturns(made);
        CommitExactly(promoted, next);
      } else {
        AbandonFails(promoted, false);
      }
    } else {
      AbandonFails(made, false);
    }
  }

  // ---------------------------------------------------------------------
  // Without faults
  // ---------------------------------------------------------------------

  predicate FaultFree(io: seq<Fault>) {
    forall k :: 0 <= k < |io| ==> io[k] == Fine
  }

  lemma FaultFreeStep(m: Machine)
    requires FaultFree(m.io)
    ensures Next(m) == Fine && FaultFree(Rest(m))
  {
  }

  lemma FaultFreePromotion(m: Machine)
    requires m.status == Running && FaultFree(m.io) && Readable(m.disk.pending)
    ensures PromotePending(m).status == Running && FaultFree(PromotePending(m).io)
    ensures PromotePending(m).disk == Disk(Absent, m.disk.pending, Absent)
  {
    FaultFreeStep(m);
    var renamed := PromoteRename(m);
    FaultFreeStep(renamed);
    FaultFreeStep(SyncRoot(renamed));
  }

  lemma FaultFreeFill(m: Machine, next: Entries)
    requires m.status == Running && FaultFree(m.io) && m.disk.pending.File?
    ensures FillPending(m, next).status == Running && FaultFree(FillPending(m, next).io)
    ensures FillPending(m, next).disk == WithNew(m.disk, next)
  {
    FaultFreeStep(m);
    var written := WritePending(m, next);
    FaultFreeStep(written);
    var synced := SyncPending(written);
    FaultFreeStep(synced);
    FaultFreeStep(Touch(synced));
  }

  /** A promotion can be made: nothing is owed, or what is owed can be read. */
  predicate Promotable(d: Disk) {
    d.pending.Absent? || Readable(d.pending)
  }

  /**
   * Without faults a save returns, owing nothing, exactly if no unreadable pending
   * file is in its way, and leaves the new state as the one file there is, fsynced.
   */
  lemma FaultFreeSave(d: Disk, io: seq<Fault>, next: Entries)
    requires FaultFree(io) && UniqueProfiles(next)
    ensures
      var p := Persist(Machine(d, io, Running), next);
      && FaultFree(p.machine.io)
      && (if Promotable(d) then
            && p.machine.status == Running && !p.loadIssue
            && p.machine.disk == Disk(Absent, File(Saved(next, CURRENT_VERSION), true), Absent)
          else p.machine.status == Thrown(false) && p.machine.disk == d)
  {
    hide PromotePending, FillPending;
    var m := Machine(d, io, Running);
    FaultFreeStep(m);
    var made := Touch(m);
    PromotedOrNot(made);
    if Promotable(d) {
      if d.pending.File? {
        FaultFreePromotion(made);
      }
      var promoted := PromotePending(made);
      FaultFreeStep(promoted);
      var file := OpenPending(promoted);
      FaultFreeFill(file, next);
      FaultFreePromotion(FillPending(file, next));
    } else {
      FaultFreeStep(made);
    }
  }

  lemma PromotedOrNot(m: Machine)
    requires m.status == Running
    ensures m.disk.pending.Absent? ==> PromotePending(m) == m
    ensures m.disk.pending.File? && !Readable(m.disk.pending) ==> PromotePending(m) == m.(status := Thrown(false))
  {
  }

  /** What a cold start that meets no fault has to complain about. */
  function IssueOf(d: Disk): LoadIssue {
    if Readable(d.pending) then NoIssue
    else if Readable(d.canonical) then
      if d.pending.File? && d.canonical.content.version == CURRENT_VERSION then PersistenceFailed else NoIssue
    else if Readable(d.backup) then PersistenceFailed
    else if d.canonical.File? || d.backup.File? then InvalidOwnership
    else if d.pending.File? then PersistenceFailed
    else NoIssue
  }

  /** The one file a cold start without faults leaves, if it finds one to promote or rewrite. */
  function LoadedDisk(d: Disk): Disk {
    if Readable(d.pending) then
      if d.pending.content.version == CURRENT_VERSION then Disk(Absent, d.pending, Absent)
      else Disk(Absent, File(Saved(d.pending.content.entries, CURRENT_VERSION), true), Absent)
    else if Readable(d.canonical) && d.canonical.content.version != CURRENT_VERSION then
      Disk(Absent, File(Saved(d.canonical.content.entries, CURRENT_VERSION), true), Absent)
    else d.(pending := Absent)
  }

  lemma FaultFreeColdStart(d: Disk, io: seq<Fault>)
    requires FaultFree(io)
    ensures
      var l := ReadState(Machine(d, io, Running));
      l.machine.status == Running && l.machine.disk == LoadedDisk(d) && l.issue == IssueOf(d)
  {
    hide PromotePending, Persist;
    var m := Machine(d, io, Running);
    if Readable(d.pending) {
      FaultFreeSave(d, io, d.pending.content.entries);
      var n := Normalize(m, d.pending, NoIssue).machine;
      PromotedOrNot(n);
      if n.disk.pending.File? {
        FaultFreePromotion(n);
      }
    } else {
      FaultFreeStep(m);
      var cleared := Cleared(m);
      assert cleared.status == Running && cleared.disk == d.(pending := Absent) && FaultFree(cleared.io);
      if Readable(d.canonical) {
        FaultFreeSave(cleared.disk, cleared.io, d.canonical.content.entries);
      }
    }
  }
}
