/**
 * What a stop of a Dashboard answers, by what its terminations reported, what that
 * leaves for later starts of the key, and what a shutdown waits for.
 */
module DashboardStops {
  import opened Wrappers
  import opened DashboardPool
  import opened DashboardAnswers

  // ---------------------------------------------------------------------
  // What a stop has been reported
  // ---------------------------------------------------------------------

  /** The stop awaits a termination, and this event is its end. */
  predicate Reports(s: Pool, j: StopId, e: Event) {
    && Enabled(s, e) && j < |s.stopTasks|
    && ((e.StopTerminated? && e.stop == j && s.stopTasks[j].phase.StopManaged? && s.stopTasks[j].managed.Some?)
        || (e.StopLateTerminated? && e.stop == j && s.stopTasks[j].phase.StopLate?))
  }

  /** Some termination that stop j awaited in the run left survivors. */
  predicate MetSurvivors(es: seq<Event>, j: StopId) {
    && es != []
    && var before, e := es[..|es| - 1], es[|es| - 1];
       || MetSurvivors(before, j)
       || (Reports(Run(Initial, before), j, e) && e.result.Survived?)
  }

  /** A stop remembers whether it met survivors until it has answered. */
  predicate StopFits(phase: StopPhase, survivors: bool) {
    match phase
    case StopManaged => !survivors
    case StopDraining(failed) => failed == survivors
    case StopLate(_, failed) => failed == survivors
    case StopSettled(ok) => ok == !survivors
    case StopDone => true
  }

  // ---------------------------------------------------------------------
  // One step
  // ---------------------------------------------------------------------

  /** What a step does to a stop that gets no report in it. */
  predicate StopMoves(t: StopTask, u: StopTask) {
    || u == t
    || u.phase.StopDone?
    || (t.phase.StopDraining? && u.phase.StopLate? && u.phase.failed == t.phase.failed)
    || (t.phase.StopDraining? && u.phase.StopSettled? && u.phase.ok == !t.phase.failed)
  }

  predicate StopBegins(phase: StopPhase) {
    phase.StopManaged? || phase == StopDraining(false)
  }

  predicate StopsMove(before: seq<StopTask>, after: seq<StopTask>) {
    && |before| <= |after|
    && (forall j :: 0 <= j < |before| ==> StopMoves(before[j], after[j]))
    && (forall j :: |before| <= j < |after| ==> StopBegins(after[j].phase))
  }

  /** The stops there were, and new ones. */
  predicate Grown(before: seq<StopTask>, after: seq<StopTask>) {
    before <= after && forall j :: |before| <= j < |after| ==> StopBegins(after[j].phase)
  }

  lemma GrownMoves(before: seq<StopTask>, after: seq<StopTask>)
    requires Grown(before, after)
    ensures StopsMove(before, after)
  {
  }

  function PutStop(tasks: seq<StopTask>, j: StopId, phase: StopPhase): seq<StopTask>
    requires j < |tasks|
  {
    tasks[j := tasks[j].(phase := phase)]
  }

  lemma PutMoves(tasks: seq<StopTask>, j: StopId, phase: StopPhase)
    requires j < |tasks| && StopMoves(tasks[j], tasks[j].(phase := phase))
    ensures StopsMove(tasks, PutStop(tasks, j, phase))
  {
  }

  lemma CallStopGrows(s: Pool, key: Key)
    ensures Grown(s.stopTasks, CallStop(s, key).stopTasks)
  {
  }

  lemma {:induction false} CallStopsGrow(s: Pool, order: seq<Key>)
    ensures Grown(s.stopTasks, CallStops(s, order).stopTasks)
    decreases |order|
  {
    hide CallStop;
    if order != [] {
      CallStopGrows(s, order[0]);
      CallStopsGrow(CallStop(s, order[0]), order[1..]);
    }
  }

  lemma ShutdownGrows(s: Pool, close: bool, order: seq<Key>)
    ensures Grown(s.stopTasks, CallShutdown(s, close, order).stopTasks)
    ensures Grown(s.stopTasks, EndPass(s, order).stopTasks)
  {
    hide CallStops, Lists, Keys;
    CallStopsGrow((if close then s.(poolClosed := true) else s).(poolStopping := true), order);
    CallStopsGrow(s, order);
  }

  lemma ConcludePuts(s: Pool, j: StopId, late: Option<Proc>, failed: bool)
    requires j < |s.stopTasks|
    ensures Conclude(s, j, late, failed).stopTasks == PutStop(s.stopTasks, j, StopSettled(!failed))
  {
  }

  lemma ElapseMoves(s: Pool, j: StopId)
    ensures StopsMove(s.stopTasks, ElapseDrain(s, j).stopTasks)
  {
    hide Conclude, StopsMove;
    GrownMoves(s.stopTasks, s.stopTasks);
    if j < |s.stopTasks| && s.stopTasks[j].phase.StopDraining? {
      var t := s.stopTasks[j];
      var late := Holding(s, t.key);
      if late.Some? && late != t.managed {
        PutMoves(s.stopTasks, j, StopLate(late.value, t.phase.failed));
        assert ElapseDrain(s, j).stopTasks == PutStop(s.stopTasks, j, StopLate(late.value, t.phase.failed));
      } else {
        PutMoves(s.stopTasks, j, StopSettled(!t.phase.failed));
        ConcludePuts(s, j, late, t.phase.failed);
      }
    }
  }

  lemma ReturnMoves(s: Pool, j: StopId)
    ensures StopsMove(s.stopTasks, ReturnStop(s, j).stopTasks)
  {
    hide Wake, StopsMove;
    GrownMoves(s.stopTasks, s.stopTasks);
    if j < |s.stopTasks| && s.stopTasks[j].phase.StopSettled? {
      WakeKeepsSlots(ReleaseStop(s, j), j, s.stopTasks[j].phase.ok);
      PutMoves(s.stopTasks, j, StopDone);
      assert ReleaseStop(s, j).stopTasks == PutStop(s.stopTasks, j, StopDone);
    }
  }

  /** The phase a report leads to. */
  function Reported(phase: StopPhase, result: Termination): StopPhase
    requires phase.StopManaged? || phase.StopLate?
  {
    if phase.StopManaged? then StopDraining(result.Survived?) else StopSettled(!phase.failed && result.Exited?)
  }

  lemma ReportPuts(s: Pool, j: StopId, result: Termination)
    ensures AnswerStop(s, j, result).stopTasks ==
      if j < |s.stopTasks| && s.stopTasks[j].phase.StopManaged? && s.stopTasks[j].managed.Some?
      then PutStop(s.stopTasks, j, Reported(s.stopTasks[j].phase, result)) else s.stopTasks
  {
  }

  lemma LateReportPuts(s: Pool, j: StopId, result: Termination)
    ensures AnswerLate(s, j, result).stopTasks ==
      if j < |s.stopTasks| && s.stopTasks[j].phase.StopLate?
      then PutStop(s.stopTasks, j, Reported(s.stopTasks[j].phase, result)) else s.stopTasks
  {
    hide Conclude, LetGo;
    if j < |s.stopTasks| && s.stopTasks[j].phase.StopLate? {
      var t := s.stopTasks[j];
      var u := Terminated(s, t.phase.late, result);
      assert u.stopTasks == s.stopTasks;
      ConcludePuts(u, j, Some(t.phase.late), t.phase.failed || result.Survived?);
    }
  }

  /** Whether the pool is stopping or closed stays as it is. */
  predicate SameAdmission(s: Pool, t: Pool) {
    t.poolStopping == s.poolStopping && t.poolClosed == s.poolClosed
  }

  /** No stop, no shutdown, no recorded failure and no retry handle changes. */
  predicate LeavesStops(s: Pool, t: Pool) {
    && t.stopTasks == s.stopTasks && t.stops == s.stops && t.shutdown == s.shutdown
    && t.failures == s.failures && t.retained == s.retained && SameAdmission(s, t)
  }

  lemma AdmitLeavesStops(s: Pool, i: StartId, supported: bool)
    requires i < |s.startTasks|
    ensures LeavesStops(s, Admit(s, i, supported))
  {
  }

  lemma ReturnLeavesStops(s: Pool, i: StartId)
    ensures LeavesStops(s, ReturnStart(s, i))
  {
  }

  lemma StartsLeaveStops(s: Pool, key: Key, supported: bool)
    ensures LeavesStops(s, CallStart(s, key, supported))
    ensures LeavesStops(s, ResumeStart(s, supported))
  {
    hide Admit;
    AdmitLeavesStops(s.(startTasks := s.startTasks + [StartTask(key, 0, Admitting)]), |s.startTasks|, supported);
    if s.woken != [] && s.woken[0] < |s.startTasks| {
      AdmitLeavesStops(s.(woken := s.woken[1..]), s.woken[0], supported);
    }
  }

  lemma SetStartLeavesStops(s: Pool, i: StartId)
    requires i < |s.startTasks|
    ensures forall phase :: LeavesStops(s, SetStart(s, i, phase))
  {
  }

  lemma ProbesLeaveStops(s: Pool, i: StartId, probe: Probe, ready: bool)
    ensures LeavesStops(s, AnswerHealth(s, i, probe))
    ensures LeavesStops(s, AnswerRecovery(s, i, probe))
    ensures LeavesStops(s, AnswerReady(s, i, ready))
  {
    hide Superseded, SetStart;
    if i < |s.startTasks| { SetStartLeavesStops(s, i); }
  }

  lemma SpawnLeavesStops(s: Pool, i: StartId, alive: bool)
    requires i < |s.startTasks|
    ensures LeavesStops(s, Spawn(s, i, alive))
  {
  }

  lemma PortLeavesStops(s: Pool, i: StartId, spawn: SpawnResult)
    ensures LeavesStops(s, AnswerPort(s, i, spawn))
  {
    hide Superseded, SetStart, Spawn;
    if i < |s.startTasks| {
      SetStartLeavesStops(s, i);
      SpawnLeavesStops(s, i, spawn == SpawnedLive);
    }
  }

  lemma CleanupKeepsStops(s: Pool, i: StartId, result: Termination)
    ensures LeavesStops(s, AnswerCleanup(s, i, result).(failures := s.failures, retained := s.retained))
  {
  }

  /** No event of a start, a process or a poll touches a stop, and only cleanups touch the failures. */
  lemma OthersLeaveStops(s: Pool, e: Event)
    requires !e.StopCalled? && !e.StopTerminated? && !e.StopDrainElapsed? && !e.StopLateTerminated? && !e.StopReturned?
    requires !e.ShutdownCalled? && !e.ShutdownPassEnded? && !e.ShutdownReturned?
    ensures LeavesStops(s, if e.CleanupAnswered? then Step(s, e).(failures := s.failures, retained := s.retained) else Step(s, e))
  {
    hide CallStart, ResumeStart, ReturnStart, AnswerHealth, AnswerRecovery, AnswerPort, AnswerReady, AnswerCleanup;
    match e
    case StartCalled(key, supported) => StartsLeaveStops(s, key, supported);
    case StartResumed(supported) => StartsLeaveStops(s, "", supported);
    case StartReturned(i) => ReturnLeavesStops(s, i);
    case HealthAnswered(i, healthy) => ProbesLeaveStops(s, i, healthy, true);
    case RecoveryAnswered(i, recovered) => ProbesLeaveStops(s, i, recovered, true);
    case ReadyAnswered(i, ready) => ProbesLeaveStops(s, i, Yes, ready);
    case PortAnswered(i, spawn) => PortLeavesStops(s, i, spawn);
    case CleanupAnswered(i, result) => CleanupKeepsStops(s, i, result);
    case _ =>
  }

  lemma StopStepMoves(s: Pool, e: Event, j: StopId)
    requires Enabled(s, e) && !Reports(s, j, e)
    ensures |s.stopTasks| <= |Step(s, e).stopTasks|
    ensures j < |s.stopTasks| ==> StopMoves(s.stopTasks[j], Step(s, e).stopTasks[j])
    ensures |s.stopTasks| <= j < |Step(s, e).stopTasks| ==> StopBegins(Step(s, e).stopTasks[j].phase)
  {
    hide CallStop, AnswerStop, ElapseDrain, AnswerLate, ReturnStop, CallShutdown, EndPass, Enabled, Reported, StopMoves,
      StopBegins;
    GrownMoves(s.stopTasks, s.stopTasks);
    match e
    case StopTerminated(k, result) => ReportPuts(s, k, result);
    case StopDrainElapsed(k) => ElapseMoves(s, k);
    case StopLateTerminated(k, result) => LateReportPuts(s, k, result);
    case StopReturned(k) => ReturnMoves(s, k);
    case _ =>
      CallsGrow(s, e);
      GrownMoves(s.stopTasks, Step(s, e).stopTasks);
  }

  lemma CallsGrow(s: Pool, e: Event)
    requires !e.StopTerminated? && !e.StopDrainElapsed? && !e.StopLateTerminated? && !e.StopReturned?
    ensures Grown(s.stopTasks, Step(s, e).stopTasks)
  {
    hide CallStop, CallShutdown, EndPass, StopBegins;
    match e
    case StopCalled(key) => CallStopGrows(s, key);
    case ShutdownCalled(close, order) => ShutdownGrows(s, close, order);
    case ShutdownPassEnded(order) => ShutdownGrows(s, false, order);
    case ShutdownReturned =>
    case _ => OthersLeaveStops(s, e);
  }

  lemma ReportFits(s: Pool, e: Event, j: StopId, survivors: bool)
    requires Reports(s, j, e) && StopFits(s.stopTasks[j].phase, survivors)
    ensures j < |Step(s, e).stopTasks| && StopFits(Step(s, e).stopTasks[j].phase, survivors || e.result.Survived?)
  {
    hide AnswerStop, AnswerLate, Enabled;
    if e.StopTerminated? {
      ReportPuts(s, j, e.result);
    } else {
      LateReportPuts(s, j, e.result);
    }
  }

  // ---------------------------------------------------------------------
  // Every run
  // ---------------------------------------------------------------------

  /** In every run, a stop that has not yet answered knows exactly whether a termination it awaited left survivors. */
  lemma {:induction false} StopRemembersSurvivors(es: seq<Event>, j: StopId)
    ensures
      var s := Run(Initial, es);
      if j < |s.stopTasks| then StopFits(s.stopTasks[j].phase, MetSurvivors(es, j)) else !MetSurvivors(es, j)
  {
    hide Step, Enabled, Reports;
    if es != [] {
      var before, e := es[..|es| - 1], es[|es| - 1];
      var s := Run(Initial, before);
      StopRemembersSurvivors(before, j);
      if Reports(s, j, e) {
        ReportEnabled(s, j, e);
        ReportFits(s, e, j, MetSurvivors(before, j));
      } else if Enabled(s, e) {
        StopStepMoves(s, e, j);
      }
    }
  }

  lemma ReportEnabled(s: Pool, j: StopId, e: Event)
    requires Reports(s, j, e)
    ensures Enabled(s, e) && j < |s.stopTasks|
  {
  }

  /** A stop that settled reports success exactly if everything it terminated is gone. */
  lemma StopAnswersExactly(es: seq<Event>, j: StopId)
    requires j < |Run(Initial, es).stopTasks| && Run(Initial, es).stopTasks[j].phase.StopSettled?
    ensures Run(Initial, es).stopTasks[j].phase.ok <==> !MetSurvivors(es, j)
  {
    StopRemembersSurvivors(es, j);
  }

  lemma WakesWaiters(s: Pool, j: StopId, ok: bool, i: StartId)
    requires i < |s.startTasks| && s.startTasks[i].phase == AwaitStop(j)
    ensures i < |Wake(s, j, ok).startTasks| && Wake(s, j, ok).startTasks[i].phase == Woken(ok)
    ensures Wake(s, j, ok).shutdown == s.shutdown && Wake(s, j, ok).stops == s.stops
  {
    hide WaitersFrom;
  }

  lemma WakeKeepsShutdown(s: Pool, j: StopId, ok: bool)
    ensures Wake(s, j, ok).shutdown == s.shutdown && Wake(s, j, ok).stops == s.stops
  {
    hide WaitersFrom, WakeTask;
  }

  /**
   * A stop that returns frees its key, tells every start that waits for it, and a
   * shutdown that does, whether it met survivors.
   */
  lemma StopReturnsExactly(es: seq<Event>, j: StopId)
    requires
      var s := Run(Initial, es);
      Enabled(s, StopReturned(j)) && j < |s.stopTasks| && s.stopTasks[j].phase.StopSettled?
    ensures
      var s := Run(Initial, es);
      var t := Step(s, StopReturned(j));
      && s.stopTasks[j].key !in t.stops
      && (forall i :: 0 <= i < |s.startTasks| && s.startTasks[i].phase == AwaitStop(j) ==>
            i < |t.startTasks| && t.startTasks[i].phase == Woken(!MetSurvivors(es, j)))
      && (s.shutdown.Draining? ==>
            t.shutdown == Draining(s.shutdown.waiting - {j},
                                   s.shutdown.failed || (j in s.shutdown.waiting && MetSurvivors(es, j))))
  {
    RunKeeps(es);
    StopRemembersSurvivors(es, j);
    var s := Run(Initial, es);
    hide Run, MetSurvivors, Wake;
    assert StopsRegistered(s.stops, s.stopTasks);
    hide Inv;
    var ok := s.stopTasks[j].phase.ok;
    WakeKeepsShutdown(ReleaseStop(s, j), j, ok);
    forall i | 0 <= i < |s.startTasks| && s.startTasks[i].phase == AwaitStop(j)
      ensures i < |Wake(ReleaseStop(s, j), j, ok).startTasks| && Wake(ReleaseStop(s, j), j, ok).startTasks[i].phase == Woken(ok)
    {
      WakesWaiters(ReleaseStop(s, j), j, ok, i);
    }
  }

  // ---------------------------------------------------------------------
  // Progress
  // ---------------------------------------------------------------------

  /** What a stop waits for next. */
  function Due(j: StopId, phase: StopPhase, result: Termination): Event {
    match phase
    case StopManaged => StopTerminated(j, result)
    case StopDraining(_) => StopDrainElapsed(j)
    case StopLate(_, _) => StopLateTerminated(j, result)
    case _ => StopReturned(j)
  }

  function StopStepsLeft(phase: StopPhase): nat {
    match phase
    case StopManaged => 4
    case StopDraining(_) => 3
    case StopLate(_, _) => 2
    case StopSettled(_) => 1
    case StopDone => 0
  }

  lemma ManagedHasProcess(s: Pool, j: StopId)
    requires Inv(s) && j < |s.stopTasks| && s.stopTasks[j].phase.StopManaged?
    ensures s.stopTasks[j].managed.Some?
  {
  }

  /** A stop goes on with whatever comes next, so four awaits at most end it, however its terminations go. */
  lemma StopMovesOn(s: Pool, j: StopId, result: Termination)
    requires Inv(s) && j < |s.stopTasks| && !s.stopTasks[j].phase.StopDone?
    ensures
      var t := Step(s, Due(j, s.stopTasks[j].phase, result));
      j < |t.stopTasks| && StopStepsLeft(t.stopTasks[j].phase) < StopStepsLeft(s.stopTasks[j].phase)
  {
    hide Inv, AnswerStop, AnswerLate, ElapseDrain, ReturnStop;
    match s.stopTasks[j].phase
    case StopManaged => ManagedHasProcess(s, j); ReportPuts(s, j, result);
    case StopDraining(_) => ElapsePuts(s, j);
    case StopLate(_, _) => LateReportPuts(s, j, result);
    case StopSettled(_) => ReturnPuts(s, j);
  }

  lemma ElapsePuts(s: Pool, j: StopId)
    requires j < |s.stopTasks| && s.stopTasks[j].phase.StopDraining?
    ensures
      var t := ElapseDrain(s, j);
      |t.stopTasks| == |s.stopTasks| && (t.stopTasks[j].phase.StopLate? || t.stopTasks[j].phase.StopSettled?)
  {
    hide Conclude;
    ConcludePuts(s, j, Holding(s, s.stopTasks[j].key), s.stopTasks[j].phase.failed);
  }

  lemma ReturnPuts(s: Pool, j: StopId)
    requires j < |s.stopTasks| && s.stopTasks[j].phase.StopSettled?
    ensures |ReturnStop(s, j).stopTasks| == |s.stopTasks| && ReturnStop(s, j).stopTasks[j].phase.StopDone?
  {
    hide Wake;
    WakeKeepsSlots(ReleaseStop(s, j), j, s.stopTasks[j].phase.ok);
  }

  // ---------------------------------------------------------------------
  // What a failure leaves
  // ---------------------------------------------------------------------

  /** In this step a stop of the key settles. */
  predicate Settles(s: Pool, e: Event, key: Key, ok: bool) {
    && (e.StopDrainElapsed? || e.StopLateTerminated?)
    && e.stop < |s.stopTasks| && s.stopTasks[e.stop].key == key && !s.stopTasks[e.stop].phase.StopSettled?
    && e.stop < |Step(s, e).stopTasks| && Step(s, e).stopTasks[e.stop].phase == StopSettled(ok)
  }

  /** In this step the cleanup of a start of the key ends. */
  predicate Cleans(s: Pool, e: Event, key: Key, ok: bool) {
    && e.CleanupAnswered? && e.start < |s.startTasks| && s.startTasks[e.start].key == key
    && s.startTasks[e.start].phase.AwaitCleanup? && e.result.Exited? == ok
  }

  lemma ConcludeFails(s: Pool, j: StopId, late: Option<Proc>, failed: bool)
    requires j < |s.stopTasks|
    ensures
      var t, key := Conclude(s, j, late, failed), s.stopTasks[j].key;
      && t.failures == (if failed then s.failures + {key} else s.failures - {key})
      && (failed && (late.Some? || s.stopTasks[j].managed.Some?) ==> key in t.dashboards)
      && t.stopTasks == PutStop(s.stopTasks, j, StopSettled(!failed))
  {
  }

  lemma ElapseFails(s: Pool, j: StopId)
    requires j < |s.stopTasks|
    ensures
      var t, u := ElapseDrain(s, j), s.stopTasks[j];
      && |t.stopTasks| == |s.stopTasks|
      && (if !u.phase.StopDraining? then t == s
          else if t.stopTasks[j].phase.StopLate? then t.failures == s.failures
          else if u.phase.failed then
            t.failures == s.failures + {u.key} && t.stopTasks[j].phase == StopSettled(false)
            && (u.managed.Some? ==> u.key in t.dashboards)
          else t.failures == s.failures - {u.key} && t.stopTasks[j].phase == StopSettled(true))
  {
    hide Conclude;
    var u := s.stopTasks[j];
    if u.phase.StopDraining? {
      ConcludeFails(s, j, Holding(s, u.key), u.phase.failed);
    }
  }

  lemma LateFails(s: Pool, j: StopId, result: Termination)
    requires j < |s.stopTasks|
    ensures
      var t, u := AnswerLate(s, j, result), s.stopTasks[j];
      && |t.stopTasks| == |s.stopTasks|
      && (if !u.phase.StopLate? then t == s
          else if u.phase.failed || result.Survived? then
            t.failures == s.failures + {u.key} && t.stopTasks[j].phase == StopSettled(false) && u.key in t.dashboards
          else t.failures == s.failures - {u.key} && t.stopTasks[j].phase == StopSettled(true))
  {
    hide Conclude, LetGo;
    var t := s.stopTasks[j];
    if t.phase.StopLate? {
      var u := Terminated(s, t.phase.late, result);
      assert u.stopTasks == s.stopTasks && u.failures == s.failures;
      ConcludeFails(u, j, Some(t.phase.late), t.phase.failed || result.Survived?);
    }
  }

  lemma CleanupFails(s: Pool, i: StartId, result: Termination)
    requires i < |s.startTasks|
    ensures
      var t, u := AnswerCleanup(s, i, result), s.startTasks[i];
      if !u.phase.AwaitCleanup? then t == s
      else if result.Exited? then t.failures == s.failures - {u.key}
      else t.failures == s.failures + {u.key} && u.key in t.dashboards
  {
  }

  lemma {:induction false} CallStopsKeepFailures(s: Pool, order: seq<Key>)
    ensures CallStops(s, order).failures == s.failures && CallStops(s, order).retained == s.retained
    decreases |order|
  {
    if order != [] {
      CallStopsKeepFailures(CallStop(s, order[0]), order[1..]);
    }
  }

  lemma StopsKeepFailures(s: Pool, e: Event)
    requires e.StopCalled? || e.StopTerminated? || e.StopReturned? || e.ShutdownCalled? || e.ShutdownPassEnded?
             || e.ShutdownReturned?
    ensures Step(s, e).failures == s.failures
    ensures !e.StopTerminated? ==> Step(s, e).retained == s.retained
  {
    hide ReturnStop, CallShutdown, EndPass, CallStop, AnswerStop;
    match e
    case ShutdownCalled(close, order) => ShutdownKeepsFailures(s, close, order);
    case ShutdownPassEnded(order) => ShutdownKeepsFailures(s, false, order);
    case StopReturned(j) => ReturnKeepsFailures(s, j);
    case StopCalled(key) => CallKeepsFailures(s, key);
    case StopTerminated(j, result) => TerminationKeepsFailures(s, j, result);
    case ShutdownReturned =>
  }

  lemma CallKeepsFailures(s: Pool, key: Key)
    ensures CallStop(s, key).failures == s.failures && CallStop(s, key).retained == s.retained
  {
  }

  lemma TerminationKeepsFailures(s: Pool, j: StopId, result: Termination)
    ensures AnswerStop(s, j, result).failures == s.failures
  {
  }

  lemma ReturnKeepsFailures(s: Pool, j: StopId)
    ensures ReturnStop(s, j).failures == s.failures && ReturnStop(s, j).retained == s.retained
  {
    hide Wake;
    if j < |s.stopTasks| && s.stopTasks[j].phase.StopSettled? {
      WakeKeepsFailures(ReleaseStop(s, j), j, s.stopTasks[j].phase.ok);
    }
  }

  lemma WakeKeepsFailures(s: Pool, j: StopId, ok: bool)
    ensures Wake(s, j, ok).failures == s.failures && Wake(s, j, ok).retained == s.retained
  {
    hide WaitersFrom, WakeTask;
  }

  /** No recorded failure and no retry handle changes. */
  predicate SameRecords(s: Pool, t: Pool) {
    t.failures == s.failures && t.retained == s.retained
  }

  lemma PassKeepsRecords(s: Pool, order: seq<Key>)
    ensures SameRecords(s, Pass(s, order))
  {
    hide CallStops, Keys, SameRecords;
    CallStopsKeepFailures(s, order);
    forall t: Pool, shutdown: Shutdown | t.failures == s.failures && t.retained == s.retained
      ensures SameRecords(s, t.(shutdown := shutdown))
    {
      ShutdownAside(s, t, shutdown);
    }
  }

  lemma ShutdownAside(s: Pool, t: Pool, shutdown: Shutdown)
    requires t.failures == s.failures && t.retained == s.retained
    ensures SameRecords(s, t.(shutdown := shutdown))
  {
  }

  lemma ShutdownKeepsFailures(s: Pool, close: bool, order: seq<Key>)
    ensures SameRecords(s, CallShutdown(s, close, order))
    ensures SameRecords(s, EndPass(s, order))
  {
    hide Pass, Lists, Keys;
    PassKeepsRecords((if close then s.(poolClosed := true) else s).(poolStopping := true), order);
    PassKeepsRecords(s, order);
  }

  /**
   * A key is on record as failed after a step exactly if a stop or a cleanup of it
   * failed in the step, or it was and none succeeded; with the failure, the process
   * is back in the map, to be terminated again.
   */
  lemma FailuresExactly(s: Pool, e: Event, key: Key)
    requires Enabled(s, e)
    ensures
      var t := Step(s, e);
      && (key in t.failures <==>
            || Settles(s, e, key, false) || Cleans(s, e, key, false)
            || (key in s.failures && !Settles(s, e, key, true) && !Cleans(s, e, key, true)))
      && (Cleans(s, e, key, false) ==> key in t.dashboards)
      && (Settles(s, e, key, false) && s.stopTasks[e.stop].managed.Some? ==> key in t.dashboards)
  {
    hide CallStart, ElapseDrain, AnswerLate, AnswerCleanup, Enabled;
    match e
    case StopDrainElapsed(j) =>
      assert Step(s, e) == ElapseDrain(s, j);
      hide Step;
      if j < |s.stopTasks| { ElapseFails(s, j); } else { NoSuchTask(s, j, 0, Exited); }
    case StopLateTerminated(j, result) =>
      assert Step(s, e) == AnswerLate(s, j, result);
      hide Step;
      if j < |s.stopTasks| { LateFails(s, j, result); } else { NoSuchTask(s, j, 0, result); }
    case CleanupAnswered(i, result) =>
      assert Step(s, e) == AnswerCleanup(s, i, result);
      hide Step;
      if i < |s.startTasks| { CleanupFails(s, i, result); } else { NoSuchTask(s, 0, i, result); }
    case _ =>
      hide Step;
      if e.StopCalled? || e.StopTerminated? || e.StopReturned? || e.ShutdownCalled? || e.ShutdownPassEnded?
         || e.ShutdownReturned? {
        StopsKeepFailures(s, e);
      } else {
        OthersLeaveStops(s, e);
      }
  }

  lemma NoSuchTask(s: Pool, j: StopId, i: StartId, result: Termination)
    ensures j >= |s.stopTasks| ==> ElapseDrain(s, j) == s && AnswerLate(s, j, result) == s
    ensures i >= |s.startTasks| ==> AnswerCleanup(s, i, result) == s
  {
  }

  /** The process whose termination the event reports. */
  function Terminating(s: Pool, e: Event): Option<Proc> {
    if e.CleanupAnswered? && e.start < |s.startTasks| && s.startTasks[e.start].phase.AwaitCleanup? then
      Some(s.startTasks[e.start].phase.proc)
    else if e.StopTerminated? && e.stop < |s.stopTasks| && s.stopTasks[e.stop].phase.StopManaged? then
      s.stopTasks[e.stop].managed
    else if e.StopLateTerminated? && e.stop < |s.stopTasks| && s.stopTasks[e.stop].phase.StopLate? then
      Some(s.stopTasks[e.stop].phase.late)
    else None
  }

  lemma ConcludeKeepsRetained(s: Pool, j: StopId, late: Option<Proc>, failed: bool)
    requires j < |s.stopTasks|
    ensures Conclude(s, j, late, failed).retained == s.retained
  {
  }

  lemma ElapseKeepsRetained(s: Pool, j: StopId)
    ensures ElapseDrain(s, j).retained == s.retained
  {
    hide Conclude;
    if j < |s.stopTasks| && s.stopTasks[j].phase.StopDraining? {
      ConcludeKeepsRetained(s, j, Holding(s, s.stopTasks[j].key), s.stopTasks[j].phase.failed);
    }
  }

  lemma CleanupRetains(s: Pool, i: StartId, result: Termination)
    ensures AnswerCleanup(s, i, result).retained ==
      match Terminating(s, CleanupAnswered(i, result))
      case Some(p) => Terminated(s, p, result).retained
      case None => s.retained
  {
  }

  lemma StopRetains(s: Pool, j: StopId, result: Termination)
    ensures AnswerStop(s, j, result).retained ==
      match Terminating(s, StopTerminated(j, result))
      case Some(p) => Terminated(s, p, result).retained
      case None => s.retained
  {
  }

  lemma LateRetains(s: Pool, j: StopId, result: Termination)
    ensures AnswerLate(s, j, result).retained ==
      match Terminating(s, StopLateTerminated(j, result))
      case Some(p) => Terminated(s, p, result).retained
      case None => s.retained
  {
    hide LetGo, Conclude, Terminated;
    if j < |s.stopTasks| && s.stopTasks[j].phase.StopLate? {
      var t := s.stopTasks[j];
      var u := Terminated(s, t.phase.late, result);
      TerminatedKeepsStarts(s, t.phase.late, result);
      ConcludeKeepsRetained(u, j, Some(t.phase.late), t.phase.failed || result.Survived?);
    }
  }

  lemma ReportRetains(s: Pool, e: Event)
    requires e.CleanupAnswered? || e.StopTerminated? || e.StopLateTerminated?
    ensures Step(s, e).retained ==
      match Terminating(s, e)
      case Some(p) => Terminated(s, p, e.result).retained
      case None => s.retained
  {
    hide AnswerCleanup, AnswerStop, AnswerLate, Terminating, Terminated;
    match e
    case CleanupAnswered(i, result) => CleanupRetains(s, i, result);
    case StopTerminated(j, result) => StopRetains(s, j, result);
    case StopLateTerminated(j, result) => LateRetains(s, j, result);
  }

  lemma ElapseRetains(s: Pool, e: Event)
    requires e.StopDrainElapsed?
    ensures Step(s, e).retained == s.retained && Terminating(s, e).None?
  {
    hide ElapseDrain;
    ElapseKeepsRetained(s, e.stop);
  }

  lemma NothingReported(s: Pool, e: Event)
    requires !e.CleanupAnswered? && !e.StopTerminated? && !e.StopLateTerminated?
    ensures Terminating(s, e).None?
  {
  }

  /**
   * A process can be terminated again after a step exactly if the step reports that
   * it survived with a handle to retry, or it could before and is not reported gone.
   */
  lemma RetainedExactly(s: Pool, e: Event, p: Proc)
    requires Enabled(s, e)
    ensures p in Step(s, e).retained <==>
      || (Terminating(s, e) == Some(p) && e.result == Survived(true))
      || (p in s.retained && !(Terminating(s, e) == Some(p) && e.result == Exited))
  {
    hide Enabled, Step, Terminating;
    if e.CleanupAnswered? || e.StopTerminated? || e.StopLateTerminated? {
      ReportRetains(s, e);
    } else if e.StopDrainElapsed? {
      ElapseRetains(s, e);
    } else {
      NothingReported(s, e);
      if e.StopCalled? || e.StopReturned? || e.ShutdownCalled? || e.ShutdownPassEnded? || e.ShutdownReturned? {
        StopsKeepFailures(s, e);
      } else {
        OthersLeaveStops(s, e);
      }
    }
  }

  // ---------------------------------------------------------------------
  // Admission
  // ---------------------------------------------------------------------

  /** The map holds an entry of the key whose process is there or can be terminated again. */
  predicate Serving(s: Pool, key: Key) {
    key in s.dashboards && Manageable(s, s.dashboards[key])
  }

  /** What becomes of a call that no stop holds up. */
  function Admitted(s: Pool, key: Key, supported: bool): StartPhase {
    if s.poolClosed || s.poolStopping then StartDone(NotRunning)
    else if key in s.starts then StartDone(Joined(s.starts[key]))
    else if key in s.failures then StartDone(NotRunning)
    else if Serving(s, key) then StartDone(Running)
    else if supported then AwaitHealth
    else StartSettled(false)
  }

  /** The call takes the slot of its key, with the key's generation, or leaves every slot. */
  predicate Slots(s: Pool, t: Pool, i: StartId, taken: bool) {
    && i < |t.startTasks|
    && (if taken then t.starts == s.starts[t.startTasks[i].key := i] && !Superseded(t, i) else t.starts == s.starts)
  }

  lemma DeadIsDropped(s: Pool, key: Key)
    ensures
      var t := DropDead(s, key);
      && (key in t.dashboards <==> Serving(s, key))
      && t.startTasks == s.startTasks && t.starts == s.starts && t.generations == s.generations
  {
  }

  lemma AnsweredAtOnce(s: Pool, i: StartId, supported: bool)
    requires i < |s.startTasks| && Admitted(s, s.startTasks[i].key, supported).StartDone?
    ensures Admit(s, i, supported).startTasks == Put(s.startTasks, i, Admitted(s, s.startTasks[i].key, supported))
    ensures Admit(s, i, supported).starts == s.starts
  {
    hide DropDead, GenerationIn, Serving;
    DeadIsDropped(s, s.startTasks[i].key);
  }

  lemma TakesSlot(s: Pool, i: StartId, supported: bool)
    requires i < |s.startTasks| && !Admitted(s, s.startTasks[i].key, supported).StartDone?
    ensures
      var t, key := Admit(s, i, supported), s.startTasks[i].key;
      && t.startTasks == s.startTasks[i := StartTask(key, Generation(s, key), Admitted(s, key, supported))]
      && t.starts == s.starts[key := i] && t.generations == s.generations
  {
    hide DropDead, GenerationIn, Serving;
    DeadIsDropped(s, s.startTasks[i].key);
  }

  lemma AdmitsExactly(s: Pool, i: StartId, supported: bool)
    requires i < |s.startTasks|
    ensures
      var t, key := Admit(s, i, supported), s.startTasks[i].key;
      && |t.startTasks| == |s.startTasks| && t.startTasks[i].key == key
      && t.startTasks[i].phase == Admitted(s, key, supported)
      && Slots(s, t, i, !Admitted(s, key, supported).StartDone?)
  {
    hide Admit, Admitted, GenerationIn;
    if Admitted(s, s.startTasks[i].key, supported).StartDone? {
      AnsweredAtOnce(s, i, supported);
    } else {
      TakesSlot(s, i, supported);
    }
  }

  /**
   * A start takes the slot of its key exactly if the pool is open, no stop works on
   * the key, no start holds the slot, no cleanup of it is on record as failed and
   * nothing serves it; otherwise it waits for the stop, or is answered at once.
   */
  lemma StartAdmittedExactly(s: Pool, key: Key, supported: bool)
    ensures
      var t, i := CallStart(s, key, supported), |s.startTasks|;
      var waits := !s.poolClosed && !s.poolStopping && key in s.stops;
      && |t.startTasks| == i + 1 && t.startTasks[i].key == key
      && t.startTasks[i].phase == (if waits then AwaitStop(s.stops[key]) else Admitted(s, key, supported))
      && Slots(s, t, i, !waits && !Admitted(s, key, supported).StartDone?)
  {
    hide Admit, GenerationIn;
    var called := s.(startTasks := s.startTasks + [StartTask(key, 0, Admitting)]);
    AdmitsExactly(called, |s.startTasks|, supported);
    assert Admitted(called, key, supported) == Admitted(s, key, supported);
  }

  /** A start that waited for a stop is admitted like a new one if the stop succeeded, and else is not. */
  lemma ResumedExactly(s: Pool, supported: bool)
    requires Inv(s) && s.woken != []
    ensures
      var t, i := ResumeStart(s, supported), s.woken[0];
      && i < |s.startTasks| == |t.startTasks| && s.startTasks[i].phase.Woken? && t.woken == s.woken[1..]
      && var phase := if s.startTasks[i].phase.stopped then Admitted(s, s.startTasks[i].key, supported) else StartDone(NotRunning);
         && t.startTasks[i].phase == phase
         && Slots(s, t, i, !phase.StartDone?)
  {
    hide Admit, GenerationIn;
    assert WokenTogether(s.woken, s.startTasks, s.stops);
    hide Inv;
    var popped := s.(woken := s.woken[1..]);
    AdmitsExactly(popped, s.woken[0], supported);
    AdmitKeepsQueue(popped, s.woken[0], supported);
    assert Admitted(popped, s.startTasks[s.woken[0]].key, supported) == Admitted(s, s.startTasks[s.woken[0]].key, supported);
  }

  lemma AdmitKeepsQueue(s: Pool, i: StartId, supported: bool)
    requires i < |s.startTasks|
    ensures Admit(s, i, supported).woken == s.woken
  {
  }

  // ---------------------------------------------------------------------
  // Shutdowns
  // ---------------------------------------------------------------------

  /** Every key there was is being stopped, and what was not yet being stopped is out of the other maps. */
  predicate Stopping(s: Pool, t: Pool, keys: set<Key>) {
    && (forall k :: k in keys ==> k in t.stops)
    && (forall k :: k in s.stops ==> k in t.stops && t.stops[k] == s.stops[k])
    && (forall k :: k in keys && k !in s.stops ==> k !in t.dashboards && k !in t.starts)
  }

  lemma CallStopStops(s: Pool, key: Key)
    ensures
      var t := CallStop(s, key);
      && t.stops.Keys == s.stops.Keys + {key}
      && (forall k :: k in s.stops ==> t.stops[k] == s.stops[k])
      && t.dashboards.Keys <= s.dashboards.Keys && t.starts.Keys <= s.starts.Keys
      && (key !in s.stops ==> key !in t.dashboards && key !in t.starts && Generation(t, key) == Generation(s, key) + 1)
  {
  }

  lemma {:induction false} CallStopsStop(s: Pool, order: seq<Key>)
    ensures
      var t := CallStops(s, order);
      && Stopping(s, t, set k | k in order)
      && t.stops.Keys == s.stops.Keys + (set k | k in order)
      && t.dashboards.Keys <= s.dashboards.Keys && t.starts.Keys <= s.starts.Keys
    decreases |order|
  {
    hide CallStop, Generation;
    if order != [] {
      CallStopStops(s, order[0]);
      var u := CallStop(s, order[0]);
      CallStopsStop(u, order[1..]);
      assert (set k | k in order) == {order[0]} + set k | k in order[1..];
    }
  }

  /** A round of a shutdown stops every key there is, and waits for exactly the stops in flight; without a key it ends. */
  lemma PassStopsAll(s: Pool, order: seq<Key>)
    requires Lists(order, Keys(s))
    ensures
      var t := Pass(s, order);
      if Keys(s) == {} then t == s.(shutdown := Ended(true))
      else
        && Stopping(s, t, Keys(s))
        && t.shutdown == Draining(set k | k in t.stops :: t.stops[k], false)
  {
    hide CallStops, Stopping;
    CallStopsStop(s, order);
    assert (set k | k in order) == Keys(s);
    if Keys(s) != {} {
      var u := CallStops(s, order);
      assert forall k :: k in u.stops ==> k in order;
      assert (set k | k in u.stops && k in order :: u.stops[k]) == set k | k in u.stops :: u.stops[k];
      SameMaps(s, u, u.(shutdown := Draining(set k | k in u.stops :: u.stops[k], false)), Keys(s));
    }
  }

  lemma SameMaps(s: Pool, t: Pool, u: Pool, keys: set<Key>)
    requires Stopping(s, t, keys) && u.stops == t.stops && u.dashboards == t.dashboards && u.starts == t.starts
    ensures Stopping(s, u, keys)
  {
  }

  /** A stop in flight has not answered yet. */
  predicate InFlight(s: Pool, j: StopId) {
    j < |s.stopTasks| && !s.stopTasks[j].phase.StopDone?
  }

  /** Only stops in flight hold a key, and a shutdown waits for such stops only. */
  predicate Awaited(s: Pool) {
    && (forall k :: k in s.stops ==> InFlight(s, s.stops[k]))
    && (s.shutdown.Draining? ==> forall j :: j in s.shutdown.waiting ==> InFlight(s, j))
  }

  lemma SameAwaited(s: Pool, t: Pool)
    requires Awaited(s) && t.stops == s.stops && t.shutdown == s.shutdown && |t.stopTasks| == |s.stopTasks|
    requires forall j :: 0 <= j < |s.stopTasks| && t.stopTasks[j].phase.StopDone? ==> s.stopTasks[j].phase.StopDone?
    ensures Awaited(t)
  {
  }

  lemma CallStopAwaited(s: Pool, key: Key)
    requires Awaited(s)
    ensures Awaited(CallStop(s, key))
  {
  }

  lemma {:induction false} CallStopsAwaited(s: Pool, order: seq<Key>)
    requires Awaited(s)
    ensures Awaited(CallStops(s, order))
    decreases |order|
  {
    hide CallStop, Awaited;
    if order != [] {
      CallStopAwaited(s, order[0]);
      CallStopsAwaited(CallStop(s, order[0]), order[1..]);
    }
  }

  lemma PassAwaited(s: Pool, order: seq<Key>)
    requires Awaited(s)
    ensures Awaited(Pass(s, order))
  {
    hide CallStops;
    CallStopsAwaited(s, order);
  }

  lemma ShutdownAwaited(s: Pool, close: bool, order: seq<Key>)
    requires Awaited(s)
    ensures Awaited(CallShutdown(s, close, order)) && Awaited(EndPass(s, order))
  {
    hide Pass;
    PassAwaited((if close then s.(poolClosed := true) else s).(poolStopping := true), order);
    PassAwaited(s, order);
  }

  lemma ReturnAwaited(s: Pool, j: StopId)
    requires Inv(s) && Awaited(s)
    ensures Awaited(ReturnStop(s, j))
  {
    assert StopsIndexed(s.stops, s.stopTasks);
    hide Inv, Wake;
    if j < |s.stopTasks| && s.stopTasks[j].phase.StopSettled? {
      var ok := s.stopTasks[j].phase.ok;
      WakeKeepsSlots(ReleaseStop(s, j), j, ok);
      WakeKeepsShutdown(ReleaseStop(s, j), j, ok);
    }
  }

  lemma ReportKeepsMaps(s: Pool, j: StopId, result: Termination)
    ensures AnswerStop(s, j, result).stops == s.stops && AnswerStop(s, j, result).shutdown == s.shutdown
  {
  }

  lemma ConcludeKeepsMaps(s: Pool, j: StopId, late: Option<Proc>, failed: bool)
    requires j < |s.stopTasks|
    ensures Conclude(s, j, late, failed).stops == s.stops && Conclude(s, j, late, failed).shutdown == s.shutdown
  {
  }

  lemma ConclusionKeepsMaps(s: Pool, j: StopId, result: Termination)
    ensures ElapseDrain(s, j).stops == s.stops && ElapseDrain(s, j).shutdown == s.shutdown
    ensures AnswerLate(s, j, result).stops == s.stops && AnswerLate(s, j, result).shutdown == s.shutdown
  {
    hide Conclude, LetGo;
    if j < |s.stopTasks| {
      var t := s.stopTasks[j];
      ConcludeKeepsMaps(s, j, Holding(s, t.key), t.phase.StopDraining? && t.phase.failed);
      if t.phase.StopLate? {
        ConcludeKeepsMaps(Terminated(s, t.phase.late, result), j, Some(t.phase.late), t.phase.failed || result.Survived?);
      }
    }
  }

  lemma ElapseAwaited(s: Pool, j: StopId)
    requires Awaited(s)
    ensures Awaited(ElapseDrain(s, j))
  {
    hide Conclude;
    ConclusionKeepsMaps(s, j, Exited);
    if j < |s.stopTasks| && s.stopTasks[j].phase.StopDraining? {
      ConcludePuts(s, j, Holding(s, s.stopTasks[j].key), s.stopTasks[j].phase.failed);
    }
    SameAwaited(s, ElapseDrain(s, j));
  }

  lemma StepAwaited(s: Pool, e: Event)
    requires Inv(s) && Enabled(s, e) && Awaited(s)
    ensures Awaited(Step(s, e))
  {
    hide Inv, CallStop, AnswerStop, ElapseDrain, AnswerLate, ReturnStop, CallShutdown, EndPass, Enabled, Awaited, InFlight;
    match e
    case StopCalled(key) => CallStopAwaited(s, key);
    case StopTerminated(j, result) =>
      ReportPuts(s, j, result);
      ReportKeepsMaps(s, j, result);
      SameAwaited(s, AnswerStop(s, j, result));
    case StopDrainElapsed(j) => ElapseAwaited(s, j);
    case StopLateTerminated(j, result) =>
      LateReportPuts(s, j, result);
      ConclusionKeepsMaps(s, j, result);
      SameAwaited(s, AnswerLate(s, j, result));
    case StopReturned(j) => ReturnAwaited(s, j);
    case ShutdownCalled(close, order) => ShutdownAwaited(s, close, order);
    case ShutdownPassEnded(order) => ShutdownAwaited(s, false, order);
    case ShutdownReturned => ResetAwaited(s);
    case _ =>
      OthersLeaveStops(s, e);
      hide Step;
      SameAwaited(s, Step(s, e));
  }

  lemma ResetAwaited(s: Pool)
    requires Awaited(s)
    ensures Awaited(ReturnShutdown(s))
  {
  }

  lemma {:induction false} RunAwaited(es: seq<Event>)
    ensures Awaited(Run(Initial, es))
  {
    hide Awaited, Inv, Step, Enabled;
    if es == [] {
      NothingAwaited();
    } else {
      var before, e := es[..|es| - 1], es[|es| - 1];
      RunAwaited(before);
      RunKeeps(before);
      if Enabled(Run(Initial, before), e) {
        StepAwaited(Run(Initial, before), e);
      }
    }
  }

  lemma NothingAwaited()
    ensures Awaited(Initial)
  {
  }

  /**
   * A shutdown under way can always go on: while it waits for a stop, what that
   * stop waits for next brings it nearer to its answer, and when none is left the
   * round ends the shutdown, with a failure exactly if a stop of the round met
   * survivors, or begins another round.
   */
  lemma ShutdownGoesOn(es: seq<Event>, j: StopId, result: Termination, order: seq<Key>)
    requires Run(Initial, es).shutdown.Draining?
    requires Lists(order, Keys(Run(Initial, es)))
    ensures
      var s := Run(Initial, es);
      && (j in s.shutdown.waiting ==>
            && InFlight(s, j)
            && var t := Step(s, Due(j, s.stopTasks[j].phase, result));
               j < |t.stopTasks| && StopStepsLeft(t.stopTasks[j].phase) < StopStepsLeft(s.stopTasks[j].phase))
      && (s.shutdown.waiting == {} ==>
            var t := EndPass(s, order);
            if s.shutdown.failed then t == s.(shutdown := Ended(false))
            else if Keys(s) == {} then t == s.(shutdown := Ended(true))
            else Stopping(s, t, Keys(s)) && t.shutdown == Draining(set k | k in t.stops :: t.stops[k], false))
  {
    hide Run, Step, Pass, Stopping, Keys, Lists, Inv, StopStepsLeft;
    RunKeeps(es);
    RunAwaited(es);
    var s := Run(Initial, es);
    if j in s.shutdown.waiting {
      StopMovesOn(s, j, result);
    }
    PassStopsAll(s, order);
  }

  // ---------------------------------------------------------------------
  // When the pool admits starts
  // ---------------------------------------------------------------------

  /** Some shutdown called in the run was to close the pool. */
  predicate Closed(es: seq<Event>) {
    && es != []
    && var before, e := es[..|es| - 1], es[|es| - 1];
       Closed(before) || (e.ShutdownCalled? && e.close && Enabled(Run(Initial, before), e))
  }

  predicate Admits(s: Pool, closed: bool) {
    && s.poolClosed == closed
    && (s.poolStopping <==> !s.shutdown.NoShutdown? || closed)
  }

  lemma ConcludeKeepsAdmission(s: Pool, j: StopId, late: Option<Proc>, failed: bool)
    requires j < |s.stopTasks|
    ensures SameAdmission(s, Conclude(s, j, late, failed))
  {
  }

  lemma TerminatedKeepsAdmission(s: Pool, p: Proc, result: Termination)
    ensures SameAdmission(s, Terminated(s, p, result)) && Terminated(s, p, result).stopTasks == s.stopTasks
  {
  }

  lemma StopKeepsAdmission(s: Pool, key: Key, j: StopId, result: Termination)
    ensures SameAdmission(s, CallStop(s, key)) && CallStop(s, key).shutdown == s.shutdown
    ensures SameAdmission(s, AnswerStop(s, j, result))
  {
  }

  lemma DrainKeepsAdmission(s: Pool, j: StopId, result: Termination)
    ensures SameAdmission(s, ElapseDrain(s, j)) && SameAdmission(s, AnswerLate(s, j, result))
  {
    hide Conclude, Terminated, LetGo;
    if j < |s.stopTasks| {
      var t := s.stopTasks[j];
      ConcludeKeepsAdmission(s, j, Holding(s, t.key), t.phase.StopDraining? && t.phase.failed);
      if t.phase.StopLate? {
        var u := Terminated(s, t.phase.late, result);
        TerminatedKeepsAdmission(s, t.phase.late, result);
        ConcludeKeepsAdmission(u, j, Some(t.phase.late), t.phase.failed || result.Survived?);
      }
    }
  }

  lemma WakeKeepsAdmission(s: Pool, j: StopId, ok: bool)
    ensures SameAdmission(s, Wake(s, j, ok))
  {
    hide WaitersFrom, WakeTask;
  }

  lemma ReturnKeepsAdmission(s: Pool, j: StopId)
    ensures SameAdmission(s, ReturnStop(s, j))
    ensures ReturnStop(s, j).shutdown.NoShutdown? <==> s.shutdown.NoShutdown?
  {
    hide Wake;
    if j < |s.stopTasks| && s.stopTasks[j].phase.StopSettled? {
      WakeKeepsAdmission(ReleaseStop(s, j), j, s.stopTasks[j].phase.ok);
      WakeKeepsShutdown(ReleaseStop(s, j), j, s.stopTasks[j].phase.ok);
    }
  }

  lemma {:induction false} CallStopsKeepAdmission(s: Pool, order: seq<Key>)
    ensures SameAdmission(s, CallStops(s, order))
    decreases |order|
  {
    hide CallStop;
    if order != [] {
      StopKeepsAdmission(s, order[0], 0, Exited);
      CallStopsKeepAdmission(CallStop(s, order[0]), order[1..]);
    }
  }

  lemma PassKeepsAdmission(s: Pool, order: seq<Key>)
    ensures SameAdmission(s, Pass(s, order)) && !Pass(s, order).shutdown.NoShutdown?
  {
    hide CallStops, Keys;
    CallStopsKeepAdmission(s, order);
  }

  lemma ShutdownAdmits(s: Pool, close: bool, order: seq<Key>, closed: bool)
    requires Lists(order, Keys(s)) && Admits(s, closed)
    ensures Admits(CallShutdown(s, close, order), closed || close)
    ensures Admits(EndPass(s, order), closed)
  {
    hide Pass;
    var t := if close then s.(poolClosed := true) else s;
    assert Keys(t) == Keys(s);
    PassKeepsAdmission(t.(poolStopping := true), order);
    PassKeepsAdmission(s, order);
  }

  lemma StopStepAdmits(s: Pool, e: Event, closed: bool)
    requires e.StopCalled? || e.StopTerminated? || e.StopDrainElapsed? || e.StopLateTerminated? || e.StopReturned?
    requires Admits(s, closed)
    ensures Admits(Step(s, e), closed)
  {
    hide CallStop, AnswerStop, ElapseDrain, AnswerLate, ReturnStop;
    match e
    case StopCalled(key) => StopKeepsAdmission(s, key, 0, Exited);
    case StopTerminated(j, result) => StopKeepsAdmission(s, "", j, result); ReportKeepsMaps(s, j, result);
    case StopDrainElapsed(j) => DrainKeepsAdmission(s, j, Exited); ConclusionKeepsMaps(s, j, Exited);
    case StopLateTerminated(j, result) => DrainKeepsAdmission(s, j, result); ConclusionKeepsMaps(s, j, result);
    case StopReturned(j) => ReturnKeepsAdmission(s, j);
  }

  lemma ReleaseAdmits(s: Pool, closed: bool)
    requires Admits(s, closed)
    ensures Admits(ReturnShutdown(s), closed)
  {
  }

  /** In every run the pool refuses starts exactly while a shutdown is under way, or for good once one was called that closes it. */
  lemma {:induction false} PoolAdmitsExactly(es: seq<Event>)
    ensures Admits(Run(Initial, es), Closed(es))
  {
    hide Step, Enabled, Admits;
    if es == [] {
      NothingRefused();
    } else {
      var before, e := es[..|es| - 1], es[|es| - 1];
      PoolAdmitsExactly(before);
      if Enabled(Run(Initial, before), e) {
        StepAdmission(Run(Initial, before), e, Closed(before));
      }
    }
  }

  lemma NothingRefused()
    ensures Admits(Initial, false)
  {
  }

  lemma StepAdmission(s: Pool, e: Event, closed: bool)
    requires Enabled(s, e) && Admits(s, closed)
    ensures Admits(Step(s, e), closed || (e.ShutdownCalled? && e.close))
  {
    hide CallShutdown, EndPass, ReturnShutdown;
    match e
    case ShutdownCalled(close, order) => ShutdownAdmits(s, close, order, closed);
    case ShutdownPassEnded(order) => ShutdownAdmits(s, false, order, closed);
    case ShutdownReturned => ReleaseAdmits(s, closed);
    case _ =>
      hide Step;
      if e.StopCalled? || e.StopTerminated? || e.StopDrainElapsed? || e.StopLateTerminated? || e.StopReturned? {
        StopStepAdmits(s, e, closed);
      } else {
        OthersLeaveStops(s, e);
      }
  }
}
