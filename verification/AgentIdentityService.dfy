/** The service as the object it is: each method changes the files of one profile step by step. */
module AgentIdentityServices {
  import opened AgentIdentity
  import opened FileTransactions
  import opened IdentityChanges
  import opened ManagedBlock
  import opened Wrappers

  class AgentIdentityService {
    const profileId: string
    var files: Files

    constructor (profileId: string, files: Files)
      ensures this.profileId == profileId && this.files == files
    {
      this.profileId := profileId;
      this.files := files;
    }

    /** Writes the files in order; on a failure puts the snapshots back, last one first. */
    method WriteTransaction(list: seq<Mutation<Path, Content>>, writes: Attempts, restores: Attempts)
      returns (outcome: Outcome)
      requires |list| == 4
      modifies this
      ensures (files, outcome) == Transact(old(files), list, writes, restores)
    {
      ghost var start := files;
      var snapshots := Snapshots(files, list);
      var i := 0;
      var failed := false;
      while i < |list| && !failed
        invariant 0 <= i <= |list|
        invariant !failed ==> WriteAll(start, list, writes) == WriteAll(files, list[i..], writes[i..])
        invariant failed ==> WriteAll(start, list, writes) == (files, false)
      {
        files := Perform(files, list[i], writes[i]);
        failed := writes[i].Fails?;
        i := i + 1;
      }
      if !failed {
        return Committed;
      }
      ghost var written := files;
      var rollbackErrors := 0;
      var k := |snapshots|;
      assert snapshots[..k] == snapshots && restores[..k] == restores;
      while k > 0
        invariant 0 <= k <= |snapshots|
        invariant RestoreAll(written, snapshots, restores) == RestoreAll(files, snapshots[..k], restores[..k])
        invariant rollbackErrors == 0 <==> forall j :: k <= j < |restores| ==> restores[j].Succeeds?
      {
        k := k - 1;
        files := Perform(files, snapshots[k], restores[k]);
        assert snapshots[..k + 1][..k] == snapshots[..k] && restores[..k + 1][..k] == restores[..k];
        if restores[k].Fails? {
          rollbackErrors := rollbackErrors + 1;
        }
      }
      return if rollbackErrors > 0 then PartlyCompensated else Compensated;
    }

    method SetDisplayName(
      rawName: string, clock: Option<string>, operationId: OperationId, writes: Attempts, restores: Attempts)
      returns (r: Answer)
      modifies this
      ensures (files, r) == AgentIdentity.SetDisplayName(old(files), profileId, rawName, clock, operationId, writes, restores)
      ensures r.Ok? <==> Renamable(old(files), rawName, clock, operationId) && AllSucceed(writes)
      ensures r.Ok? ==>
        && ReadMeta(files) == Ok(Meta(Some(r.value.displayName), ReadMeta(old(files)).value.rest))
        && Rewrites(SoulText(old(files)), SoulText(files), r.value.displayName, r.value.revision)
    {
      hide Rewrites, Renamable, NormalizeDisplayName, ReadState, ReadMeta, ValidOperationId, BackupOf, SoulText, Updated;
      RenameWorksExactly(files, profileId, rawName, clock, operationId, writes, restores);
      if AgentIdentity.SetDisplayName(files, profileId, rawName, clock, operationId, writes, restores).1.Ok? {
        RenameWrites(files, profileId, rawName, clock, operationId, writes, restores);
      }
      var displayName := NormalizeDisplayName(rawName);
      if displayName.Err? {
        return Err(displayName.error);
      }
      if clock.None? {
        return Err(ClockInvalid);
      }
      var state := ReadState(files);
      if state.Err? {
        return Err(state.error);
      }
      var revision := state.value.revision + 1;
      if !ValidOperationId(operationId) {
        return Err(OperationInvalid);
      }
      var meta := ReadMeta(files);
      if meta.Err? {
        return Err(meta.error);
      }
      var nextSoul := UpdateManagedIdentityBlock(SoulText(files), displayName.value, revision);
      if nextSoul.Err? {
        return Err(SoulCorrupt);
      }
      if BackupPath(operationId) in files {
        return Err(OperationExists);
      }
      var list := ChangeFiles(
        operationId,
        Some(BackupOf(files, profileId, operationId, revision)),
        Some(Serialized(MetaDoc(meta.value.(name := Some(displayName.value))))),
        Some(Raw(nextSoul.value)),
        Some(Serialized(StateDoc(Renamed(state.value, displayName.value, clock.value)))));
      var outcome := WriteTransaction(list, writes, restores);
      r := AnswerFor(outcome, Identity(displayName.value, revision, clock.value));
    }

    method UndoDisplayName(
      target: OperationId, clock: Option<string>, undoId: OperationId, writes: Attempts, restores: Attempts)
      returns (r: Answer)
      modifies this
      ensures (files, r) == AgentIdentity.UndoDisplayName(old(files), profileId, target, clock, undoId, writes, restores)
    {
      var accepted := AcceptedBackup(files, profileId, target);
      if accepted.Err? {
        return Err(accepted.error);
      }
      var (backup, current) := accepted.value;
      if clock.None? {
        return Err(ClockInvalid);
      }
      var revision := current.revision + 1;
      var displayName := DisplayNameFromBackup(backup.before);
      if displayName.Err? {
        return Err(displayName.error);
      }
      if !ValidOperationId(undoId) {
        return Err(OperationInvalid);
      }
      if BackupPath(undoId) in files {
        return Err(OperationExists);
      }
      var restoredSoul := RestoreSoulSnapshot(TextOption(backup.before.soul), displayName.value, revision);
      if restoredSoul.Err? {
        return Err(SoulCorrupt);
      }
      var list := ChangeFiles(
        undoId,
        Some(BackupOf(files, profileId, undoId, revision)),
        backup.before.profileMeta,
        ContentOption(restoredSoul.value),
        Some(Serialized(StateDoc(Renamed(current, displayName.value, clock.value)))));
      var outcome := WriteTransaction(list, writes, restores);
      r := AnswerFor(outcome, Identity(displayName.value, revision, clock.value));
    }

    method RollbackUncommittedDisplayName(target: OperationId, writes: Attempts, restores: Attempts)
      returns (r: Result<(), IdentityError>)
      modifies this
      ensures (files, r) == RollbackDisplayName(old(files), profileId, target, writes, restores)
    {
      var accepted := AcceptedBackup(files, profileId, target);
      if accepted.Err? {
        return Err(accepted.error);
      }
      var (backup, _) := accepted.value;
      var outcome := WriteTransaction(RollbackFiles(target, backup.before), writes, restores);
      match outcome
      case Committed => return Ok(());
      case Compensated => return Err(WriteFailed);
      case PartlyCompensated => return Err(RollbackFailed);
    }

    method RecordSessionRevision(
      session: SessionId, clock: Option<string>, kept: set<SessionId>, write: Attempt<Content>)
      returns (r: Result<(), IdentityError>)
      modifies this
      ensures (files, r) == RecordSession(old(files), session, clock, kept, write)
    {
      if !ValidSessionId(session) {
        return Err(SessionInvalid);
      }
      var state := ReadState(files);
      if state.Err? {
        return Err(state.error);
      }
      if clock.None? {
        return Err(ClockInvalid);
      }
      var content := Serialized(StateDoc(Recorded(state.value, session, clock.value, kept)));
      files := Perform(files, Mutation(StatePath, Some(content)), write);
      return if write.Succeeds? then Ok(()) else Err(WriteFailed);
    }

    static function AnswerFor(outcome: Outcome, identity: Identity): Answer {
      match outcome
      case Committed => Ok(identity)
      case Compensated => Err(WriteFailed)
      case PartlyCompensated => Err(RollbackFailed)
    }
  }
}
