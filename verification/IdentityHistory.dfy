/** The undo stack of identity changes, over whole runs of the service. */
module IdentityHistory {
  import opened AgentIdentity
  import opened FileTransactions
  import opened ManagedBlock
  import opened Wrappers

  datatype Event =
    | Rename(rawName: string, clock: Option<string>, operationId: OperationId, writes: Attempts, restores: Attempts)
    | Undo(target: OperationId, clock: Option<string>, operationId: OperationId, writes: Attempts, restores: Attempts)
    | Record(session: SessionId, clock: Option<string>, kept: set<SessionId>, write: Attempt<Content>)
    | Rollback(target: OperationId, writes: Attempts, restores: Attempts)

  const ALL: Attempts := [Succeeds, Succeeds, Succeeds, Succeeds]

  ghost function Step(files: Files, profileId: string, event: Event): Files {
    match event
    case Rename(raw, clock, id, writes, restores) => SetDisplayName(files, profileId, raw, clock, id, writes, restores).0
    case Undo(target, clock, id, writes, restores) =>
      UndoDisplayName(files, profileId, target, clock, id, writes, restores).0
    case Record(session, clock, kept, write) => RecordSession(files, session, clock, kept, write).0
    case Rollback(target, writes, restores) => RollbackDisplayName(files, profileId, target, writes, restores).0
  }

  ghost predicate Works(files: Files, profileId: string, event: Event) {
    match event
    case Rename(raw, clock, id, writes, restores) =>
      SetDisplayName(files, profileId, raw, clock, id, writes, restores).1.Ok?
    case Undo(target, clock, id, writes, restores) =>
      UndoDisplayName(files, profileId, target, clock, id, writes, restores).1.Ok?
    case Record(session, clock, kept, write) => RecordSession(files, session, clock, kept, write).1.Ok?
    case Rollback(target, writes, restores) => RollbackDisplayName(files, profileId, target, writes, restores).1.Ok?
  }

  /** No restore fails, and a failed session record leaves the old or the new file. */
  ghost predicate Clean(files: Files, profileId: string, event: Event) {
    match event
    case Rename(_, _, _, _, restores) => AllSucceed(restores)
    case Undo(_, _, _, _, restores) => AllSucceed(restores)
    case Record(session, clock, kept, write) =>
      var after := Step(files, profileId, event);
      after == files || after == RecordSession(files, session, clock, kept, Succeeds).0
    case Rollback(_, _, restores) => AllSucceed(restores)
  }

  ghost function Run(files: Files, profileId: string, events: seq<Event>): Files
    decreases |events|
  {
    if events == [] then files else Run(Step(files, profileId, events[0]), profileId, events[1..])
  }

  ghost predicate AllClean(files: Files, profileId: string, events: seq<Event>)
    decreases |events|
  {
    events == [] ||
    (Clean(files, profileId, events[0]) && AllClean(Step(files, profileId, events[0]), profileId, events[1..]))
  }

  // ---------------------------------------------------------------------
  // What one change does
  // ---------------------------------------------------------------------

  /** One backup more, which holds the three files of before, and the next revision. */
  ghost predicate IsChange(files: Files, after: Files, profileId: string, id: OperationId) {
    && ValidOperationId(id)
    && BackupPath(id) !in files
    && ReadState(files).Ok?
    && Get(after, BackupPath(id)) == Some(BackupOf(files, profileId, id, ReadState(files).value.revision + 1))
    && (forall other :: other != id ==> Get(after, BackupPath(other)) == Get(files, BackupPath(other)))
    && (exists state: IdentityState ::
      && Get(after, StatePath) == Some(Serialized(StateDoc(state)))
      && state.revision == ReadState(files).value.revision + 1
      && state.sessions == ReadState(files).value.sessions)
  }

  lemma ChangeTransaction(
    files: Files, id: OperationId, backup: Option<Content>, meta: Option<Content>, soul: Option<Content>,
    state: Option<Content>, writes: Attempts, restores: Attempts)
    ensures
      var t := Transact(files, ChangeFiles(id, backup, meta, soul, state), writes, restores);
      && (t.1.Committed? ==>
        && Get(t.0, BackupPath(id)) == backup
        && Get(t.0, MetaPath) == meta
        && Get(t.0, SoulPath) == soul
        && Get(t.0, StatePath) == state
        && (forall other :: other != id ==> Get(t.0, BackupPath(other)) == Get(files, BackupPath(other))))
      && (AllSucceed(restores) && !t.1.Committed? ==> t == (files, Compensated))
  {
    var list := ChangeFiles(id, backup, meta, soul, state);
    CommittedExactly(files, list, writes);
    if AllSucceed(writes) {
      CommitWritesTheList(files, list, writes);
      assert list[0].path == BackupPath(id) && list[1].path == MetaPath && list[2].path == SoulPath && list[3].path == StatePath;
      assert forall other :: other != id ==> !Listed(list, BackupPath(other));
    }
    if AllSucceed(restores) {
      CompensationRestoresTheDisk(files, list, writes, restores);
    }
  }

  lemma RollbackTransaction(files: Files, id: OperationId, before: Before, writes: Attempts, restores: Attempts)
    ensures
      var t := Transact(files, RollbackFiles(id, before), writes, restores);
      && (t.1.Committed? <==> AllSucceed(writes))
      && (t.1.Committed? ==>
        && Get(t.0, BackupPath(id)) == None
        && BeforeOf(t.0) == before
        && (forall other :: other != id ==> Get(t.0, BackupPath(other)) == Get(files, BackupPath(other))))
      && (AllSucceed(restores) && !t.1.Committed? ==> t == (files, Compensated))
  {
    var list := RollbackFiles(id, before);
    CommittedExactly(files, list, writes);
    if AllSucceed(writes) {
      CommitWritesTheList(files, list, writes);
      assert list[0].path == MetaPath && list[1].path == SoulPath && list[2].path == StatePath && list[3].path == BackupPath(id);
      assert forall other :: other != id ==> !Listed(list, BackupPath(other));
    }
    if AllSucceed(restores) {
      CompensationRestoresTheDisk(files, list, writes, restores);
    }
  }

  ghost predicate Sound(files: Files, profileId: string, id: OperationId, plan: Plan) {
    && plan.operationId == id
    && ValidOperationId(id)
    && BackupPath(id) !in files
    && ReadState(files).Ok?
    && plan.state.revision == ReadState(files).value.revision + 1
    && plan.state.sessions == ReadState(files).value.sessions
    && plan.backup == BackupOf(files, profileId, id, plan.state.revision)
  }

  lemma RenamePlanIsSound(files: Files, profileId: string, raw: string, clock: Option<string>, id: OperationId)
    ensures
      var plan := PlanRename(files, profileId, raw, clock, id);
      plan.Ok? ==> Sound(files, profileId, id, plan.value)
  {
  }

  lemma UndoPlanIsSound(files: Files, profileId: string, target: OperationId, clock: Option<string>, id: OperationId)
    ensures
      var plan := PlanUndo(files, profileId, target, clock, id);
      plan.Ok? ==> Sound(files, profileId, id, plan.value)
  {
  }

  /** A plan is carried out as one change or, restores permitting, not at all. */
  lemma CarriedIsChange(
    files: Files, profileId: string, id: OperationId, plan: Result<Plan, IdentityError>, writes: Attempts, restores: Attempts)
    requires plan.Ok? ==> Sound(files, profileId, id, plan.value)
    ensures
      var r := Carry(files, plan, writes, restores);
      && (r.1.Ok? ==> IsChange(files, r.0, profileId, id))
      && (r.1.Err? && AllSucceed(restores) ==> r.0 == files)
  {
    if plan.Ok? {
      var p := plan.value;
      var state := Some(Serialized(StateDoc(p.state)));
      ChangeTransaction(files, id, Some(p.backup), p.profileMeta, p.soul, state, writes, restores);
    }
  }

  // ---------------------------------------------------------------------
  // Alignment: the backups and the revision, over every run
  // ---------------------------------------------------------------------

  function StateBefore(before: Before): Result<IdentityState, IdentityError> {
    if before.identityState.Some? then ParseState(before.identityState.value) else Ok(FRESH)
  }

  /** No session is recorded for a revision still to come. */
  ghost predicate SessionsBounded(state: IdentityState) {
    forall s :: s in state.sessions ==> state.sessions[s].revision <= state.revision
  }

  ghost predicate BackupFits(files: Files, id: OperationId) {
    && ReadBackup(files, id).Ok?
    && ReadState(files).Ok?
    && var backup := ReadBackup(files, id).value;
       && backup.afterRevision <= ReadState(files).value.revision
       && StateBefore(backup.before).Ok?
       && StateBefore(backup.before).value.revision + 1 == backup.afterRevision
       && SessionsBounded(StateBefore(backup.before).value)
  }

  /** Every backup is at most as new as the state, and no two are for the same revision. */
  ghost predicate Aligned(files: Files) {
    && ReadState(files).Ok?
    && SessionsBounded(ReadState(files).value)
    && (forall id :: BackupPath(id) in files ==> BackupFits(files, id))
    && (forall id, id' :: BackupPath(id) in files && BackupPath(id') in files && id != id' ==>
      ReadBackup(files, id).value.afterRevision != ReadBackup(files, id').value.afterRevision)
  }

  lemma ChangeKeepsAligned(files: Files, after: Files, profileId: string, id: OperationId)
    requires Aligned(files) && IsChange(files, after, profileId, id)
    requires ReadState(files).value.revision < MAX_SAFE_INTEGER
    ensures Aligned(after) && ReadState(after).value.revision == ReadState(files).value.revision + 1
  {
    forall other | other != id
      ensures BackupPath(other) in after <==> BackupPath(other) in files
      ensures ReadBackup(after, other) == ReadBackup(files, other)
    {
      assert Get(after, BackupPath(other)) == Get(files, BackupPath(other));
    }
    assert StateBefore(BeforeOf(files)) == ReadState(files);
    forall other | BackupPath(other) in after
      ensures BackupFits(after, other)
      ensures other != id ==> BackupFits(files, other)
    {
    }
  }

  /** A session record rewrites the identity state and keeps its revision. */
  lemma RecordKeepsAligned(files: Files, session: SessionId, clock: Option<string>, kept: set<SessionId>)
    requires Aligned(files)
    ensures
      var after := RecordSession(files, session, clock, kept, Succeeds).0;
      Aligned(after) && SameButSessions(after, files)
  {
    var after := RecordSession(files, session, clock, kept, Succeeds).0;
    RecordsOnly(files, session, clock, kept);
    SameIsAligned(files, after);
  }

  /** Two disks that differ in the sessions of the identity state at most. */
  ghost predicate SameButSessions(a: Files, b: Files) {
    && (forall p :: p != StatePath ==> Get(a, p) == Get(b, p))
    && ReadState(a).Ok? && ReadState(b).Ok?
    && ReadState(a).value.revision == ReadState(b).value.revision
  }

  lemma RecordsOnly(files: Files, session: SessionId, clock: Option<string>, kept: set<SessionId>)
    requires ReadState(files).Ok?
    ensures SameButSessions(RecordSession(files, session, clock, kept, Succeeds).0, files)
    ensures SessionsBounded(ReadState(files).value) ==>
      SessionsBounded(ReadState(RecordSession(files, session, clock, kept, Succeeds).0).value)
  {
    var state := ReadState(files).value;
    var at := if clock.Some? then clock.value else "";
    var next := Recorded(state, session, at, kept);
    assert SafeState(next) by {
      forall s | s in next.sessions
        ensures next.sessions[s].revision <= MAX_SAFE_INTEGER
      {
        assert s != session ==> s in state.sessions && next.sessions[s] == state.sessions[s];
      }
    }
  }

  lemma SameIsAligned(files: Files, after: Files)
    requires Aligned(files) && SameButSessions(after, files) && SessionsBounded(ReadState(after).value)
    ensures Aligned(after)
  {
    forall id
      ensures BackupPath(id) in after <==> BackupPath(id) in files
      ensures ReadBackup(after, id) == ReadBackup(files, id)
    {
      assert Get(after, BackupPath(id)) == Get(files, BackupPath(id));
    }
    forall id | BackupPath(id) in after
      ensures BackupFits(after, id)
    {
      assert BackupFits(files, id);
    }
  }

  /** A rollback takes the state one revision back, where every other backup still fits. */
  lemma RollbackKeepsAligned(files: Files, profileId: string, target: OperationId, writes: Attempts, restores: Attempts)
    requires Aligned(files) && AllSucceed(restores)
    ensures Aligned(RollbackDisplayName(files, profileId, target, writes, restores).0)
    ensures ReadState(RollbackDisplayName(files, profileId, target, writes, restores).0).value.revision
      <= ReadState(files).value.revision
  {
    var accepted := AcceptedBackup(files, profileId, target);
    if accepted.Ok? {
      var before := accepted.value.0.before;
      RollbackTransaction(files, target, before, writes, restores);
      if AllSucceed(writes) {
        var after := RollbackDisplayName(files, profileId, target, writes, restores).0;
        assert BackupFits(files, target);
        StateComesBack(after, before);
        OthersStillFit(files, after, target);
      }
    }
  }

  lemma StateComesBack(after: Files, before: Before)
    requires BeforeOf(after) == before
    ensures ReadState(after) == StateBefore(before)
  {
    assert Get(after, StatePath) == before.identityState;
  }

  lemma OthersStillFit(files: Files, after: Files, target: OperationId)
    requires Aligned(files) && BackupPath(target) in files
    requires ReadBackup(files, target).value.afterRevision == ReadState(files).value.revision
    requires ReadState(after).Ok? && SessionsBounded(ReadState(after).value)
    requires ReadState(after).value.revision + 1 == ReadState(files).value.revision
    requires Get(after, BackupPath(target)) == None
    requires forall other :: other != target ==> Get(after, BackupPath(other)) == Get(files, BackupPath(other))
    ensures Aligned(after)
  {
    forall id
      ensures BackupPath(id) in after <==> BackupPath(id) in files && id != target
      ensures id != target ==> ReadBackup(after, id) == ReadBackup(files, id)
    {
      if id != target {
        assert Get(after, BackupPath(id)) == Get(files, BackupPath(id));
      }
    }
    forall id | BackupPath(id) in after
      ensures BackupFits(after, id)
    {
      assert BackupFits(files, id);
      assert ReadBackup(files, id).value.afterRevision != ReadBackup(files, target).value.afterRevision;
    }
  }

  lemma StepKeepsAligned(files: Files, profileId: string, event: Event)
    requires Aligned(files) && Clean(files, profileId, event)
    requires event.Rename? || event.Undo? ==> ReadState(files).value.revision < MAX_SAFE_INTEGER
    ensures Aligned(Step(files, profileId, event))
    ensures ReadState(Step(files, profileId, event)).value.revision <= ReadState(files).value.revision + |Changes([event])|
  {
    match event
    case Rename(raw, clock, id, writes, restores) =>
      RenamePlanIsSound(files, profileId, raw, clock, id);
      CarriedIsChange(files, profileId, id, PlanRename(files, profileId, raw, clock, id), writes, restores);
      if Works(files, profileId, event) {
        ChangeKeepsAligned(files, Step(files, profileId, event), profileId, id);
      }
    case Undo(target, clock, id, writes, restores) =>
      UndoPlanIsSound(files, profileId, target, clock, id);
      CarriedIsChange(files, profileId, id, PlanUndo(files, profileId, target, clock, id), writes, restores);
      if Works(files, profileId, event) {
        ChangeKeepsAligned(files, Step(files, profileId, event), profileId, id);
      }
    case Record(session, clock, kept, write) =>
      RecordKeepsAligned(files, session, clock, kept);
    case Rollback(target, writes, restores) =>
      RollbackKeepsAligned(files, profileId, target, writes, restores);
  }

  lemma ChangesCons(events: seq<Event>)
    requires events != []
    ensures Changes(events) == Changes([events[0]]) + Changes(events[1..])
  {
  }

  /** Over every run of changes, undos, rollbacks and records, refused and failed ones included. */
  lemma {:induction false} RunKeepsAligned(files: Files, profileId: string, events: seq<Event>)
    requires Aligned(files) && AllClean(files, profileId, events)
    requires ReadState(files).value.revision + |Changes(events)| <= MAX_SAFE_INTEGER
    ensures Aligned(Run(files, profileId, events))
    decreases |events|
  {
    if events != [] {
      ChangesCons(events);
      StepKeepsAligned(files, profileId, events[0]);
      RunKeepsAligned(Step(files, profileId, events[0]), profileId, events[1..]);
    }
  }

  /** At most one backup can be undone or rolled back at any time, and it is the newest. */
  lemma OnlyTheNewestIsAccepted(files: Files, profileId: string, id: OperationId)
    requires Aligned(files) && AcceptedBackup(files, profileId, id).Ok?
    ensures forall other :: other != id && BackupPath(other) in files ==>
      && ReadBackup(files, other).value.afterRevision < ReadBackup(files, id).value.afterRevision
      && AcceptedBackup(files, profileId, other).Err?
  {
    forall other | other != id && BackupPath(other) in files
      ensures ReadBackup(files, other).value.afterRevision < ReadBackup(files, id).value.afterRevision
      ensures AcceptedBackup(files, profileId, other).Err?
    {
      assert BackupFits(files, other) && BackupFits(files, id);
    }
  }

  // ---------------------------------------------------------------------
  // Rolling a run back
  // ---------------------------------------------------------------------

  ghost predicate AllWork(files: Files, profileId: string, events: seq<Event>)
    decreases |events|
  {
    events == [] ||
    (!events[0].Rollback? && Works(files, profileId, events[0])
     && AllWork(Step(files, profileId, events[0]), profileId, events[1..]))
  }

  /** The operation ids of the changes of a run, oldest first. */
  function Changes(events: seq<Event>): seq<OperationId> {
    if events == [] then []
    else
      match events[0]
      case Rename(_, _, id, _, _) => [id] + Changes(events[1..])
      case Undo(_, _, id, _, _) => [id] + Changes(events[1..])
      case _ => Changes(events[1..])
  }

  /** Rolls changes back, newest first. */
  function RollBackAll(files: Files, profileId: string, ids: seq<OperationId>): Result<Files, IdentityError>
    decreases |ids|
  {
    if ids == [] then Ok(files)
    else
      match RollBackAll(files, profileId, ids[1..])
      case Err(e) => Err(e)
      case Ok(later) =>
        var r := RollbackDisplayName(later, profileId, ids[0], ALL, ALL);
        if r.1.Ok? then Ok(r.0) else Err(r.1.error)
  }

  /** The disk right before the first change of a run: only session records come earlier. */
  ghost function BeforeFirstChange(files: Files, profileId: string, events: seq<Event>): Files
    decreases |events|
  {
    if events != [] && events[0].Record? then
      BeforeFirstChange(Step(files, profileId, events[0]), profileId, events[1..])
    else files
  }

  lemma {:induction false} RecordsChangeSessionsOnly(files: Files, profileId: string, events: seq<Event>)
    requires AllWork(files, profileId, events) && ReadState(files).Ok?
    ensures SameButSessions(BeforeFirstChange(files, profileId, events), files)
    decreases |events|
  {
    if events != [] && events[0].Record? {
      var event := events[0];
      RecordsOnly(files, event.session, event.clock, event.kept);
      RecordsChangeSessionsOnly(Step(files, profileId, event), profileId, events[1..]);
    }
  }

  /** A change is rolled back exactly, however many sessions were recorded in between. */
  lemma ChangeRolledBack(files: Files, after: Files, later: Files, profileId: string, id: OperationId)
    requires IsChange(files, after, profileId, id)
    requires SameButSessions(later, after)
    requires ReadState(files).value.revision < MAX_SAFE_INTEGER
    ensures RollbackDisplayName(later, profileId, id, ALL, ALL) == (files, Ok(()))
  {
    var before := BeforeOf(files);
    assert Get(later, BackupPath(id)) == Get(after, BackupPath(id));
    RollbackTransaction(later, id, before, ALL, ALL);
    var back := RollbackDisplayName(later, profileId, id, ALL, ALL).0;
    assert BeforeOf(back) == BeforeOf(files);
    forall p
      ensures Get(back, p) == Get(files, p)
    {
      match p
      case BackupPath(other) =>
        assert Get(later, BackupPath(other)) == Get(after, BackupPath(other));
      case _ =>
    }
    SameFiles(back, files);
  }

  lemma WorkingChange(files: Files, profileId: string, event: Event)
    requires Works(files, profileId, event) && (event.Rename? || event.Undo?)
    ensures IsChange(files, Step(files, profileId, event), profileId, event.operationId)
  {
    match event
    case Rename(raw, clock, id, writes, restores) =>
      RenamePlanIsSound(files, profileId, raw, clock, id);
      CarriedIsChange(files, profileId, id, PlanRename(files, profileId, raw, clock, id), writes, restores);
    case Undo(target, clock, id, writes, restores) =>
      UndoPlanIsSound(files, profileId, target, clock, id);
      CarriedIsChange(files, profileId, id, PlanUndo(files, profileId, target, clock, id), writes, restores);
  }

  /**
   * The undo stack: any run of successful renames and undos with session records
   * in between, rolled back newest first, ends on the very disk the first change
   * found: profile metadata, SOUL, identity state and no backup of the run.
   */
  lemma {:induction false} RollingBackRestoresTheStart(files: Files, profileId: string, events: seq<Event>)
    requires ReadState(files).Ok? && AllWork(files, profileId, events)
    requires ReadState(files).value.revision + |Changes(events)| <= MAX_SAFE_INTEGER
    ensures RollBackAll(Run(files, profileId, events), profileId, Changes(events))
      == Ok(BeforeFirstChange(files, profileId, events))
    decreases |events|
  {
    if events != [] {
      var event := events[0];
      var after := Step(files, profileId, event);
      if event.Record? {
        RecordsOnly(files, event.session, event.clock, event.kept);
        RollingBackRestoresTheStart(after, profileId, events[1..]);
      } else {
        WorkingChange(files, profileId, event);
        RollingBackRestoresTheStart(after, profileId, events[1..]);
        RecordsChangeSessionsOnly(after, profileId, events[1..]);
        ChangeRolledBack(files, after, BeforeFirstChange(after, profileId, events[1..]), profileId, event.operationId);
        assert Changes(events)[1..] == Changes(events[1..]);
      }
    }
  }

  /** At the last safe revision a rename still reports success, and nothing works afterwards. */
  lemma LastRevisionLocksTheIdentity(files: Files, profileId: string, event: Event, id: OperationId)
    requires event.Rename? && Works(files, profileId, event)
    ensures ReadState(files).Ok?
    ensures ReadState(Step(files, profileId, event)).Err? <==> ReadState(files).value.revision == MAX_SAFE_INTEGER
    ensures ReadState(files).value.revision == MAX_SAFE_INTEGER ==>
      AcceptedBackup(Step(files, profileId, event), profileId, id).Err?
  {
    WorkingChange(files, profileId, event);
  }

  // ---------------------------------------------------------------------
  // What a change and its undo mean
  // ---------------------------------------------------------------------

  /** After a change no earlier session is resumed, until it is recorded again. */
  lemma ChangeMakesSessionsStale(files: Files, profileId: string, event: Event, session: SessionId)
    requires Aligned(files) && ReadState(files).value.revision < MAX_SAFE_INTEGER
    requires (event.Rename? || event.Undo?) && Works(files, profileId, event)
    ensures ResolveResumeSessionId(Step(files, profileId, event), session) == None
    ensures ValidSessionId(session) ==>
      forall clock: string, kept: set<SessionId> :: session in kept ==>
        ResolveResumeSessionId(
          RecordSession(Step(files, profileId, event), session, Some(clock), kept, Succeeds).0, session) == Some(session)
  {
    var after := Step(files, profileId, event);
    WorkingChange(files, profileId, event);
    ChangeKeepsAligned(files, after, profileId, event.operationId);
    forall clock: string, kept: set<SessionId> | session in kept && ValidSessionId(session)
      ensures ResolveResumeSessionId(RecordSession(after, session, Some(clock), kept, Succeeds).0, session) == Some(session)
    {
      RecordsOnly(after, session, Some(clock), kept);
    }
  }

  lemma UndoWrites(files: Files, profileId: string, undo: Event)
    requires undo.Undo? && Works(files, profileId, undo)
    ensures AcceptedBackup(files, profileId, undo.target).Ok?
    ensures
      var after := Step(files, profileId, undo);
      var (backup, state) := AcceptedBackup(files, profileId, undo.target).value;
      && Get(after, MetaPath) == backup.before.profileMeta
      && DisplayNameFromBackup(backup.before).Ok?
      && var name := DisplayNameFromBackup(backup.before).value;
         && Restored(TextOption(backup.before.soul), name, state.revision + 1) == Ok(TextOption(Get(after, SoulPath)))
         && undo.clock.Some?
         && Get(after, StatePath) == Some(Serialized(StateDoc(Renamed(state, name, undo.clock.value))))
  {
    var plan := PlanUndo(files, profileId, undo.target, undo.clock, undo.operationId);
    var p := plan.value;
    ChangeTransaction(
      files, p.operationId, Some(p.backup), p.profileMeta, p.soul, Some(Serialized(StateDoc(p.state))), undo.writes, undo.restores);
  }

  lemma BackupOfChange(files: Files, after: Files, profileId: string, id: OperationId)
    requires IsChange(files, after, profileId, id) && AcceptedBackup(after, profileId, id).Ok?
    ensures
      var (backup, state) := AcceptedBackup(after, profileId, id).value;
      backup.before == BeforeOf(files) && state.revision == ReadState(files).value.revision + 1
  {
  }

  /**
   * Undoing a rename brings the metadata file back exactly, gives SOUL its old
   * text with only the block renewed, restores the name, and moves the revision on.
   */
  lemma UndoOfRename(files: Files, profileId: string, rename: Event, undo: Event)
    requires rename.Rename? && Works(files, profileId, rename)
    requires undo.Undo? && undo.target == rename.operationId && Works(Step(files, profileId, rename), profileId, undo)
    ensures ReadState(files).Ok? && DisplayNameFromBackup(BeforeOf(files)).Ok?
    ensures
      var after := Step(Step(files, profileId, rename), profileId, undo);
      var name := DisplayNameFromBackup(BeforeOf(files)).value;
      var revision := ReadState(files).value.revision + 2;
      && Get(after, MetaPath) == Get(files, MetaPath)
      && Restored(TextOption(Get(files, SoulPath)), name, revision) == Ok(TextOption(Get(after, SoulPath)))
      && exists state: IdentityState ::
        && Get(after, StatePath) == Some(Serialized(StateDoc(state)))
        && state.displayName == name
        && state.revision == revision
  {
    var middle := Step(files, profileId, rename);
    WorkingChange(files, profileId, rename);
    UndoWrites(middle, profileId, undo);
    BackupOfChange(files, middle, profileId, rename.operationId);
  }
}
