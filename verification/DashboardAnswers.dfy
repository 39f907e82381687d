/**
 * What a start of a Dashboard does and answers, by the answers it got itself from
 * the gateway, the port search, its own process and that process's cleanup.
 */
module DashboardAnswers {
  import opened Wrappers
  import opened DashboardPool

  // ---------------------------------------------------------------------
  // What a start has been answered
  // ---------------------------------------------------------------------

  predicate AnswersStart(e: Event, i: StartId) {
    && (e.HealthAnswered? || e.RecoveryAnswered? || e.PortAnswered? || e.ReadyAnswered? || e.CleanupAnswered?)
    && e.start == i
  }

  /** The await at which a start is suspended is the one this event settles. */
  predicate Awaits(phase: StartPhase, e: Event) {
    || (phase.AwaitHealth? && e.HealthAnswered?)
    || (phase.AwaitRecovery? && e.RecoveryAnswered?)
    || (phase.AwaitPort? && e.PortAnswered?)
    || (phase.AwaitReady? && e.ReadyAnswered?)
    || (phase.AwaitCleanup? && e.CleanupAnswered?)
  }

  predicate Hears(s: Pool, i: StartId, e: Event) {
    Enabled(s, e) && AnswersStart(e, i) && i < |s.startTasks| && Awaits(s.startTasks[i].phase, e)
  }

  /** An answer, and whether no stop had superseded the start when it came. */
  datatype Heard = Heard(answer: Event, current: bool)

  function Hearing(s: Pool, i: StartId, e: Event): seq<Heard> {
    if Hears(s, i, e) then [Heard(e, !Superseded(s, i))] else []
  }

  /** The answers start i got in a run, in order. */
  function Path(es: seq<Event>, i: StartId): seq<Heard> {
    if es == [] then []
    else
      var before := es[..|es| - 1];
      Path(before, i) + Hearing(Run(Initial, before), i, es[|es| - 1])
  }

  /** The gateway is up: it was healthy, or was not and has recovered. */
  predicate GatewayUp(h: seq<Heard>, i: StartId) {
    || h == [Heard(HealthAnswered(i, Yes), true)]
    || h == [Heard(HealthAnswered(i, No), true), Heard(RecoveryAnswered(i, Yes), true)]
  }

  function Before(h: seq<Heard>): seq<Heard>
    requires h != []
  {
    h[..|h| - 1]
  }

  function Last(h: seq<Heard>): Heard
    requires h != []
  {
    h[|h| - 1]
  }

  /** With the gateway up, a port and a process came while the start was current. */
  predicate Launched(h: seq<Heard>, i: StartId) {
    && h != [] && GatewayUp(Before(h), i)
    && Last(h).current && Last(h).answer.PortAnswered? && Last(h).answer.spawn != SpawnThrew
  }

  /** The process became ready while the start was current. */
  predicate Served(h: seq<Heard>, i: StartId) {
    h != [] && Launched(Before(h), i) && Last(h) == Heard(ReadyAnswered(i, true), true)
  }

  /** The process did not become ready, or only after a stop. */
  predicate Abandoned(h: seq<Heard>, i: StartId) {
    && h != [] && Launched(Before(h), i)
    && Last(h).answer.ReadyAnswered? && !(Last(h).answer.ready && Last(h).current)
  }

  /** The last answer ended the start without a Dashboard. */
  predicate Refused(h: seq<Heard>, i: StartId) {
    && h != []
    && var last := Last(h);
       || (Before(h) == [] && last.answer.HealthAnswered? && (last.answer.healthy == Threw || !last.current))
       || (Before(h) == [Heard(HealthAnswered(i, No), true)] && last.answer.RecoveryAnswered?
           && (last.answer.recovered != Yes || !last.current))
       || (GatewayUp(Before(h), i) && last.answer.PortAnswered? && (last.answer.spawn == SpawnThrew || !last.current))
       || (Abandoned(Before(h), i) && last.answer.CleanupAnswered?)
  }

  /** The answers that bring start i where it is. */
  predicate Fits(phase: StartPhase, h: seq<Heard>, i: StartId) {
    match phase
    case Admitting => h == []
    case AwaitStop(_) => h == []
    case Woken(_) => h == []
    case AwaitHealth => h == []
    case AwaitRecovery => h == [Heard(HealthAnswered(i, No), true)]
    case AwaitPort => GatewayUp(h, i)
    case AwaitReady(_) => Launched(h, i)
    case AwaitCleanup(_) => Abandoned(h, i)
    case StartSettled(running) => if running then Served(h, i) else h == [] || Refused(h, i)
    case StartDone(Running) => h == [] || Served(h, i)
    case StartDone(NotRunning) => h == [] || Refused(h, i)
    case StartDone(Joined(_)) => h == []
  }

  // ---------------------------------------------------------------------
  // One step
  // ---------------------------------------------------------------------

  /** Where a call is right after its admission. */
  predicate Entry(phase: StartPhase) {
    phase.AwaitHealth? || phase == StartSettled(false) || phase.StartDone?
  }

  /** What a step does to a start that gets no answer in it. */
  predicate Moves(t: StartTask, u: StartTask) {
    || u == t
    || (u.key == t.key && t.phase.AwaitStop? && u.phase.Woken?)
    || (u.key == t.key && t.phase.Woken? && Entry(u.phase))
    || (u.key == t.key && t.phase.StartSettled? && u.phase == StartDone(if t.phase.running then Running else NotRunning))
  }

  predicate Begins(phase: StartPhase) {
    phase.AwaitStop? || Entry(phase)
  }

  /** Every start only moves, and new ones begin. */
  predicate AllMove(before: seq<StartTask>, after: seq<StartTask>) {
    && |before| <= |after|
    && (forall k :: 0 <= k < |before| ==> Moves(before[k], after[k]))
    && (forall k :: |before| <= k < |after| ==> Begins(after[k].phase))
  }

  lemma AdmitEntry(s: Pool, i: StartId, supported: bool)
    requires i < |s.startTasks|
    ensures var tasks := Admit(s, i, supported).startTasks;
      && |tasks| == |s.startTasks| && tasks[i].key == s.startTasks[i].key && Entry(tasks[i].phase)
      && forall k :: 0 <= k < |tasks| && k != i ==> tasks[k] == s.startTasks[k]
  {
    hide DropDead, GenerationIn;
    DropDeadAside(s, i, s.startTasks[i].key);
  }

  lemma CallStartMoves(s: Pool, key: Key, supported: bool)
    ensures AllMove(s.startTasks, CallStart(s, key, supported).startTasks)
  {
    hide Admit;
    AdmitEntry(s.(startTasks := s.startTasks + [StartTask(key, 0, Admitting)]), |s.startTasks|, supported);
  }

  lemma ResumeStartMoves(s: Pool, supported: bool)
    requires Inv(s)
    ensures AllMove(s.startTasks, ResumeStart(s, supported).startTasks)
  {
    hide Admit;
    assert WokenTogether(s.woken, s.startTasks, s.stops);
    hide Inv;
    if s.woken != [] && s.woken[0] < |s.startTasks| {
      AdmitEntry(s.(woken := s.woken[1..]), s.woken[0], supported);
    }
  }

  lemma ReturnStartMoves(s: Pool, i: StartId)
    ensures AllMove(s.startTasks, ReturnStart(s, i).startTasks)
  {
  }

  lemma WakeMoves(s: Pool, j: StopId, ok: bool)
    ensures AllMove(s.startTasks, Wake(s, j, ok).startTasks)
  {
    hide WaitersFrom;
  }

  lemma ReturnStopMoves(s: Pool, j: StopId)
    ensures AllMove(s.startTasks, ReturnStop(s, j).startTasks)
  {
    hide Wake, AllMove;
    if j < |s.stopTasks| && s.stopTasks[j].phase.StopSettled? {
      WakeMoves(ReleaseStop(s, j), j, s.stopTasks[j].phase.ok);
      SameTasksMove(s.startTasks);
      assert ReleaseStop(s, j).startTasks == s.startTasks;
    } else {
      SameTasksMove(s.startTasks);
    }
  }

  lemma SameTasksMove(tasks: seq<StartTask>)
    ensures AllMove(tasks, tasks)
  {
  }

  lemma {:induction false} CallStopsKeepStarts(s: Pool, order: seq<Key>)
    ensures CallStops(s, order).startTasks == s.startTasks
    decreases |order|
  {
    if order != [] {
      CallStopsKeepStarts(CallStop(s, order[0]), order[1..]);
    }
  }

  lemma ConcludeKeepsStarts(s: Pool, j: StopId, late: Option<Proc>, failed: bool)
    requires j < |s.stopTasks|
    ensures Conclude(s, j, late, failed).startTasks == s.startTasks
  {
  }

  lemma TerminatedKeepsStarts(s: Pool, p: Proc, result: Termination)
    ensures Terminated(s, p, result).startTasks == s.startTasks && Terminated(s, p, result).stopTasks == s.stopTasks
  {
  }

  lemma ConclusionKeepsStarts(s: Pool, j: StopId, result: Termination)
    ensures ElapseDrain(s, j).startTasks == s.startTasks
    ensures AnswerLate(s, j, result).startTasks == s.startTasks
  {
    hide Conclude, Terminated, LetGo;
    if j < |s.stopTasks| {
      var t := s.stopTasks[j];
      if t.phase.StopDraining? {
        ConcludeKeepsStarts(s, j, Holding(s, t.key), t.phase.failed);
      }
      if t.phase.StopLate? {
        var u := Terminated(s, t.phase.late, result);
        TerminatedKeepsStarts(s, t.phase.late, result);
        ConcludeKeepsStarts(u, j, Some(t.phase.late), t.phase.failed || result.Survived?);
      }
    }
  }

  lemma TerminationKeepsStarts(s: Pool, j: StopId, result: Termination)
    ensures AnswerStop(s, j, result).startTasks == s.startTasks
  {
  }

  lemma PollsKeepStarts(s: Pool, key: Key, p: Proc)
    ensures DropDead(s, key).startTasks == s.startTasks
    ensures EmitExit(s, p).startTasks == s.startTasks
    ensures ReturnShutdown(s).startTasks == s.startTasks
  {
  }

  lemma ShutdownKeepsStarts(s: Pool, close: bool, order: seq<Key>)
    ensures CallShutdown(s, close, order).startTasks == s.startTasks
    ensures EndPass(s, order).startTasks == s.startTasks
  {
    hide CallStops, Lists, Keys;
    CallStopsKeepStarts((if close then s.(poolClosed := true) else s).(poolStopping := true), order);
    CallStopsKeepStarts(s, order);
  }

  lemma StopsKeepStarts(s: Pool, e: Event)
    requires !e.StartCalled? && !e.StartResumed? && !e.StartReturned? && !e.StopReturned? && !IsAnswer(e)
    ensures Step(s, e).startTasks == s.startTasks
  {
    hide Terminated, ElapseDrain, AnswerLate, EmitExit, DropDead, ReturnShutdown, CallShutdown, EndPass, SetStop;
    match e
    case StatusPolled(key) => PollsKeepStarts(s, key, 0);
    case ExitEmitted(p) => PollsKeepStarts(s, "", p);
    case ShutdownReturned => PollsKeepStarts(s, "", 0);
    case StopDrainElapsed(j) => ConclusionKeepsStarts(s, j, Exited);
    case StopLateTerminated(j, result) => ConclusionKeepsStarts(s, j, result);
    case StopTerminated(j, result) => TerminationKeepsStarts(s, j, result);
    case ShutdownCalled(close, order) => ShutdownKeepsStarts(s, close, order);
    case ShutdownPassEnded(order) => ShutdownKeepsStarts(s, false, order);
    case _ =>
  }

  function Put(tasks: seq<StartTask>, i: StartId, phase: StartPhase): seq<StartTask>
    requires i < |tasks|
  {
    tasks[i := tasks[i].(phase := phase)]
  }

  predicate IsAnswer(e: Event) {
    e.HealthAnswered? || e.RecoveryAnswered? || e.PortAnswered? || e.ReadyAnswered? || e.CleanupAnswered?
  }

  /** The phase an awaited answer leads to. */
  function Answered(s: Pool, e: Event): StartPhase
    requires IsAnswer(e) && e.start < |s.startTasks| && Awaits(s.startTasks[e.start].phase, e)
  {
    var current := !Superseded(s, e.start);
    match e
    case HealthAnswered(_, healthy) =>
      if healthy == Threw || !current then StartSettled(false) else if healthy == Yes then AwaitPort else AwaitRecovery
    case RecoveryAnswered(_, recovered) => if recovered == Yes && current then AwaitPort else StartSettled(false)
    case PortAnswered(_, spawn) => if spawn != SpawnThrew && current then AwaitReady(|s.procs|) else StartSettled(false)
    case ReadyAnswered(i, ready) => if ready && current then StartSettled(true) else AwaitCleanup(s.startTasks[i].phase.proc)
    case CleanupAnswered(_, _) => StartSettled(false)
  }

  /** The starts after an answer: only the one that awaits it goes on. */
  function AfterAnswer(s: Pool, e: Event): seq<StartTask>
    requires IsAnswer(e)
  {
    if e.start < |s.startTasks| && Awaits(s.startTasks[e.start].phase, e) then Put(s.startTasks, e.start, Answered(s, e))
    else s.startTasks
  }

  lemma SetStartPuts(s: Pool, i: StartId)
    requires i < |s.startTasks|
    ensures forall phase :: SetStart(s, i, phase).startTasks == Put(s.startTasks, i, phase)
  {
  }

  lemma HealthTouches(s: Pool, i: StartId, healthy: Probe)
    ensures AnswerHealth(s, i, healthy).startTasks == AfterAnswer(s, HealthAnswered(i, healthy))
  {
    hide Superseded, SetStart, Put;
    if i < |s.startTasks| { SetStartPuts(s, i); }
  }

  lemma RecoveryTouches(s: Pool, i: StartId, recovered: Probe)
    ensures AnswerRecovery(s, i, recovered).startTasks == AfterAnswer(s, RecoveryAnswered(i, recovered))
  {
    hide Superseded, SetStart, Put;
    if i < |s.startTasks| { SetStartPuts(s, i); }
  }

  lemma SpawnTouches(s: Pool, i: StartId, alive: bool)
    requires i < |s.startTasks|
    ensures Spawn(s, i, alive).startTasks == Put(s.startTasks, i, AwaitReady(|s.procs|))
  {
  }

  lemma PortTouches(s: Pool, i: StartId, spawn: SpawnResult)
    ensures AnswerPort(s, i, spawn).startTasks == AfterAnswer(s, PortAnswered(i, spawn))
  {
    hide Superseded, Spawn, SetStart, Put;
    if i < |s.startTasks| {
      SetStartPuts(s, i);
      SpawnTouches(s, i, spawn == SpawnedLive);
    }
  }

  lemma ReadyTouches(s: Pool, i: StartId, ready: bool)
    ensures AnswerReady(s, i, ready).startTasks == AfterAnswer(s, ReadyAnswered(i, ready))
  {
    hide Superseded, SetStart, Put;
    if i < |s.startTasks| { SetStartPuts(s, i); }
  }

  lemma RememberingKeepsStarts(s: Pool, key: Key, p: Proc)
    ensures ForgetExited(s, key, p).startTasks == s.startTasks && RememberSurvivor(s, key, p).startTasks == s.startTasks
  {
  }

  lemma CleanupTouches(s: Pool, i: StartId, result: Termination)
    ensures AnswerCleanup(s, i, result).startTasks == AfterAnswer(s, CleanupAnswered(i, result))
  {
    hide Superseded, Terminated, ForgetExited, RememberSurvivor;
    if i < |s.startTasks| && s.startTasks[i].phase.AwaitCleanup? {
      var p := s.startTasks[i].phase.proc;
      TerminatedKeepsStarts(s, p, result);
      RememberingKeepsStarts(SetStart(Terminated(s, p, result), i, StartSettled(false)), s.startTasks[i].key, p);
    }
  }

  lemma AnswersTouch(s: Pool, e: Event)
    requires IsAnswer(e)
    ensures Step(s, e).startTasks == AfterAnswer(s, e)
  {
    hide AfterAnswer, AnswerHealth, AnswerRecovery, AnswerPort, AnswerReady, AnswerCleanup;
    match e
    case HealthAnswered(i, healthy) => HealthTouches(s, i, healthy);
    case RecoveryAnswered(i, recovered) => RecoveryTouches(s, i, recovered);
    case PortAnswered(i, spawn) => PortTouches(s, i, spawn);
    case ReadyAnswered(i, ready) => ReadyTouches(s, i, ready);
    case CleanupAnswered(i, result) => CleanupTouches(s, i, result);
  }

  /** A step leaves a start that gets no answer in it where it is, or moves it on without one. */
  lemma StepMoves(s: Pool, e: Event, i: StartId)
    requires Inv(s) && Enabled(s, e) && !Hears(s, i, e)
    ensures |s.startTasks| <= |Step(s, e).startTasks|
    ensures i < |s.startTasks| ==> Moves(s.startTasks[i], Step(s, e).startTasks[i])
    ensures |s.startTasks| <= i < |Step(s, e).startTasks| ==> Begins(Step(s, e).startTasks[i].phase)
  {
    hide Inv, CallStart, ResumeStart, ReturnStart, ReturnStop, AnswerHealth, AnswerRecovery, AnswerPort, AnswerReady,
      AnswerCleanup, CallStop, AnswerStop, ElapseDrain, AnswerLate, CallShutdown, EndPass, EmitExit, DropDead;
    match e
    case StartCalled(key, supported) => CallStartMoves(s, key, supported);
    case StartResumed(supported) => ResumeStartMoves(s, supported);
    case StartReturned(k) => ReturnStartMoves(s, k);
    case StopReturned(j) => ReturnStopMoves(s, j);
    case _ =>
      if IsAnswer(e) {
        AnswersTouch(s, e);
      } else {
        StopsKeepStarts(s, e);
      }
  }

  /** Where an answer takes the start that awaits it. */
  lemma Heeds(s: Pool, e: Event, i: StartId, h: seq<Heard>)
    requires Hears(s, i, e) && Fits(s.startTasks[i].phase, h, i)
    ensures i < |Step(s, e).startTasks| && Fits(Step(s, e).startTasks[i].phase, h + [Heard(e, !Superseded(s, i))], i)
  {
    hide Superseded, Step, Enabled;
    AnswersTouch(s, e);
    AnswerFits(s, e, h);
  }

  lemma ProbeFits(s: Pool, e: Event, h: seq<Heard>)
    requires (e.HealthAnswered? || e.RecoveryAnswered?) && e.start < |s.startTasks| && Awaits(s.startTasks[e.start].phase, e)
    requires Fits(s.startTasks[e.start].phase, h, e.start)
    ensures Fits(Answered(s, e), h + [Heard(e, !Superseded(s, e.start))], e.start)
  {
    hide Superseded, Launched, Abandoned, Served;
    var g := h + [Heard(e, !Superseded(s, e.start))];
    assert Before(g) == h && Last(g) == Heard(e, !Superseded(s, e.start));
  }

  lemma ProcessFits(s: Pool, e: Event, h: seq<Heard>)
    requires (e.PortAnswered? || e.ReadyAnswered? || e.CleanupAnswered?) && e.start < |s.startTasks|
    requires Awaits(s.startTasks[e.start].phase, e) && Fits(s.startTasks[e.start].phase, h, e.start)
    ensures Fits(Answered(s, e), h + [Heard(e, !Superseded(s, e.start))], e.start)
  {
    hide Superseded, GatewayUp;
    var g := h + [Heard(e, !Superseded(s, e.start))];
    assert Before(g) == h && Last(g) == Heard(e, !Superseded(s, e.start));
  }

  lemma AnswerFits(s: Pool, e: Event, h: seq<Heard>)
    requires IsAnswer(e) && e.start < |s.startTasks| && Awaits(s.startTasks[e.start].phase, e)
    requires Fits(s.startTasks[e.start].phase, h, e.start)
    ensures Fits(Answered(s, e), h + [Heard(e, !Superseded(s, e.start))], e.start)
  {
    hide Superseded, Fits, Answered;
    if e.HealthAnswered? || e.RecoveryAnswered? {
      ProbeFits(s, e, h);
    } else {
      ProcessFits(s, e, h);
    }
  }

  // ---------------------------------------------------------------------
  // Every run
  // ---------------------------------------------------------------------

  lemma MovesFit(t: StartTask, u: StartTask, h: seq<Heard>, i: StartId)
    requires Moves(t, u) && Fits(t.phase, h, i)
    ensures Fits(u.phase, h, i)
  {
  }

  /** In every run, every start is where its answers lead, and a start that was not yet called has none. */
  lemma {:induction false} StartFollowsItsAnswers(es: seq<Event>, i: StartId)
    ensures
      var s := Run(Initial, es);
      if i < |s.startTasks| then Fits(s.startTasks[i].phase, Path(es, i), i) else Path(es, i) == []
  {
    hide Fits, Inv, Step, Enabled, Superseded, Moves, Begins;
    if es != [] {
      var before, e := es[..|es| - 1], es[|es| - 1];
      var s := Run(Initial, before);
      StartFollowsItsAnswers(before, i);
      RunKeeps(before);
      if Hears(s, i, e) {
        Heeds(s, e, i, Path(before, i));
      } else {
        assert Path(es, i) == Path(before, i);
        if Enabled(s, e) {
          StepKeepsFit(s, e, i, Path(before, i));
        }
      }
    }
  }

  lemma StepKeepsFit(s: Pool, e: Event, i: StartId, h: seq<Heard>)
    requires Inv(s) && Enabled(s, e) && !Hears(s, i, e)
    requires if i < |s.startTasks| then Fits(s.startTasks[i].phase, h, i) else h == []
    ensures var t := Step(s, e); if i < |t.startTasks| then Fits(t.startTasks[i].phase, h, i) else h == []
  {
    hide Inv, Step, Enabled, Superseded, Moves, Hears;
    StepMoves(s, e, i);
    if i < |s.startTasks| {
      MovesFit(s.startTasks[i], Step(s, e).startTasks[i], h, i);
    }
  }

  // ---------------------------------------------------------------------
  // The gateway gate, and what a start answers
  // ---------------------------------------------------------------------

  /**
   * In every run, the port answer of a start spawns its process exactly if the
   * gateway was found up, or down and then recovered, no stop superseded the start
   * at any of its answers, and the process could be created; nothing else spawns.
   */
  lemma SpawnsExactly(es: seq<Event>, e: Event)
    requires Enabled(Run(Initial, es), e)
    ensures
      var s := Run(Initial, es);
      NewProcs(s, e) ==
        if e.PortAnswered? && e.start < |s.startTasks| && GatewayUp(Path(es, e.start), e.start)
           && !Superseded(s, e.start) && e.spawn != SpawnThrew
        then [Spawned(s.startTasks[e.start].key, e.start)] else []
  {
    hide Inv, Run, Step, Superseded, Enabled, GatewayUp, Path, Fits;
    var s := Run(Initial, es);
    StepEffects(s, e);
    if e.PortAnswered? {
      StartFollowsItsAnswers(es, e.start);
      if e.start < |s.startTasks| {
        PhaseOfPath(s.startTasks[e.start].phase, Path(es, e.start), e.start);
      }
      PortSpawns(s, e.start, e.spawn);
    }
  }

  lemma PortSpawns(s: Pool, i: StartId, spawn: SpawnResult)
    ensures Step(s, PortAnswered(i, spawn)).procs ==
      if InPhase(s, i, AwaitPort) && !Superseded(s, i) && spawn != SpawnThrew then s.procs + [Spawned(s.startTasks[i].key, i)]
      else s.procs
  {
    hide Superseded;
    assert Step(s, PortAnswered(i, spawn)) == AnswerPort(s, i, spawn);
    hide Step;
    if i < |s.startTasks| {
      SpawnFrame(s, i, spawn == SpawnedLive);
    }
  }

  /** Each await is reached by its own answers only. */
  lemma PhaseOfPath(phase: StartPhase, h: seq<Heard>, i: StartId)
    requires Fits(phase, h, i)
    ensures h == [Heard(HealthAnswered(i, No), true)] <==> phase.AwaitRecovery?
    ensures GatewayUp(h, i) <==> phase.AwaitPort?
    ensures Launched(h, i) <==> phase.AwaitReady?
    ensures Abandoned(h, i) <==> phase.AwaitCleanup?
    ensures Served(h, i) ==> phase == StartSettled(true) || phase == StartDone(Running)
    ensures Refused(h, i) ==> phase == StartSettled(false) || phase == StartDone(NotRunning)
    ensures h == [] ==> phase != StartSettled(true)
  {
  }

  /** Answer n of start i came at an event of the run, after the answers before it. */
  lemma {:induction false} HeardWhen(es: seq<Event>, i: StartId, n: nat) returns (k: nat)
    requires n < |Path(es, i)|
    ensures k < |es| && es[k] == Path(es, i)[n].answer && Path(es[..k], i) == Path(es, i)[..n]
    ensures Hears(Run(Initial, es[..k]), i, es[k])
    ensures Path(es, i)[n].current <==> !Superseded(Run(Initial, es[..k]), i)
  {
    hide Hears, Superseded, Run;
    var before := es[..|es| - 1];
    if n < |Path(before, i)| {
      k := HeardWhen(before, i, n);
      assert before[..k] == es[..k];
    } else {
      k := |es| - 1;
      assert Hears(Run(Initial, before), i, es[k]);
    }
  }

  /** Event k is an answer start i waits for, and no stop has superseded the start. */
  predicate AnsweredAt(es: seq<Event>, k: nat, e: Event, i: StartId) {
    k < |es| && es[k] == e && Hears(Run(Initial, es[..k]), i, e) && !Superseded(Run(Initial, es[..k]), i)
  }

  /** Whatever process is spawned, its start was first told that the gateway is healthy, or that it is not and then that it recovered. */
  lemma SpawnFollowsGateway(es: seq<Event>, e: Event, n: nat)
    requires n < |NewProcs(Run(Initial, es), e)|
    ensures
      var i := NewProcs(Run(Initial, es), e)[n].start;
      || (exists k :: AnsweredAt(es, k, HealthAnswered(i, Yes), i))
      || (exists k, l :: k < l && AnsweredAt(es, k, HealthAnswered(i, No), i) && AnsweredAt(es, l, RecoveryAnswered(i, Yes), i))
  {
    hide Run, Step, Superseded, Hears, Enabled;
    SpawnsExactly(es, e);
    var i := e.start;
    var h := Path(es, i);
    var l := HeardWhen(es, i, |h| - 1);
    if |h| == 2 {
      assert Path(es[..l], i) == h[..1];
      var k := HeardWhen(es[..l], i, 0);
      assert es[..l][..k] == es[..k];
      assert AnsweredAt(es, k, HealthAnswered(i, No), i);
      assert AnsweredAt(es, l, RecoveryAnswered(i, Yes), i);
    } else {
      assert AnsweredAt(es, l, HealthAnswered(i, Yes), i);
    }
  }

  /**
   * A start that was answered anything settles as running exactly if its process
   * came through the gate and became ready, with no stop superseding it at any
   * answer; one that was answered nothing never spawned.
   */
  lemma RunningExactly(es: seq<Event>, i: StartId)
    requires i < |Run(Initial, es).startTasks| && Path(es, i) != []
    ensures
      var phase := Run(Initial, es).startTasks[i].phase;
      && (phase == StartSettled(true) || phase == StartDone(Running) <==> Served(Path(es, i), i))
      && (phase == StartSettled(false) || phase == StartDone(NotRunning) <==> Refused(Path(es, i), i))
  {
    hide Run;
    StartFollowsItsAnswers(es, i);
    PhaseOfPath(Run(Initial, es).startTasks[i].phase, Path(es, i), i);
  }

  /** Readiness decides: a launched start that hears it goes on to answer running exactly if it is ready and still current. */
  lemma ReadinessDecides(es: seq<Event>, i: StartId, ready: bool)
    requires Launched(Path(es, i), i) && Enabled(Run(Initial, es), ReadyAnswered(i, ready))
    ensures
      var s := Run(Initial, es);
      && i < |s.startTasks|
      && var t := Step(s, ReadyAnswered(i, ready));
         && i < |t.startTasks|
         && (t.startTasks[i].phase == StartSettled(true) <==> ready && !Superseded(s, i))
         && (t.startTasks[i].phase.AwaitCleanup? <==> !ready || Superseded(s, i))
  {
    hide Run, Step, Superseded;
    StartFollowsItsAnswers(es, i);
    var s := Run(Initial, es);
    PhaseOfPath(s.startTasks[i].phase, Path(es, i), i);
    AnswersTouch(s, ReadyAnswered(i, ready));
  }

  function StepsLeft(phase: StartPhase): nat {
    match phase
    case AwaitHealth => 6
    case AwaitRecovery => 5
    case AwaitPort => 4
    case AwaitReady(_) => 3
    case AwaitCleanup(_) => 2
    case StartSettled(_) => 1
    case StartDone(_) => 0
    case _ => 7
  }

  /** A start goes on with whatever answer it waits for, so six awaits at most end it. */
  lemma StartMovesOn(s: Pool, e: Event, i: StartId)
    requires Hears(s, i, e) || (e == StartReturned(i) && i < |s.startTasks| && s.startTasks[i].phase.StartSettled?)
    ensures i < |s.startTasks| == |Step(s, e).startTasks|
    ensures StepsLeft(Step(s, e).startTasks[i].phase) < StepsLeft(s.startTasks[i].phase)
    ensures e == StartReturned(i) ==>
      Step(s, e).startTasks[i].phase == StartDone(if s.startTasks[i].phase.running then Running else NotRunning)
  {
    hide Superseded, Enabled, ReturnStart, Step;
    if e == StartReturned(i) {
      ReturnsExactly(s, i);
    } else {
      AnswersTouch(s, e);
    }
  }

  lemma ReturnsExactly(s: Pool, i: StartId)
    requires i < |s.startTasks| && s.startTasks[i].phase.StartSettled?
    ensures Step(s, StartReturned(i)).startTasks ==
      Put(s.startTasks, i, StartDone(if s.startTasks[i].phase.running then Running else NotRunning))
    ensures Step(s, StartReturned(i)).starts ==
      if Some(i) == (if s.startTasks[i].key in s.starts then Some(s.starts[s.startTasks[i].key]) else None)
      then s.starts - {s.startTasks[i].key} else s.starts
  {
  }
}
