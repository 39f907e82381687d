/**
 * The Dashboard module's own state and the code that updates it between two
 * awaits, each segment proved against the step of DashboardPool it performs.
 */
module DashboardModule {
  import opened Wrappers
  import opened DashboardPool

  /** startTasks and stopTasks hold the locals of the suspended calls. */
  class Dashboards {
    var dashboards: map<Key, Proc>
    var dashboardStarts: map<Key, StartId>
    var dashboardStartGenerations: map<Key, nat>
    var dashboardStopsInFlight: map<Key, StopId>
    var dashboardCleanupFailures: set<Key>
    var retryOwnership: set<Proc>
    var dashboardPoolStopping: bool
    var dashboardPoolClosed: bool
    var dashboardPoolShutdown: Shutdown
    var startTasks: seq<StartTask>
    var stopTasks: seq<StopTask>
    var woken: seq<StartId>
    var procs: seq<Spawned>
    var live: set<Proc>
    ghost var forgotten: set<Proc>

    ghost function View(): Pool
      reads this
    {
      Pool(dashboards, dashboardStarts, dashboardStartGenerations, dashboardStopsInFlight, dashboardCleanupFailures,
           retryOwnership, dashboardPoolStopping, dashboardPoolClosed, dashboardPoolShutdown,
           startTasks, stopTasks, woken, procs, live, forgotten)
    }

    ghost predicate Valid()
      reads this
    {
      Inv(View())
    }

    constructor ()
      ensures View() == Initial && Valid()
    {
      dashboards, dashboardStarts, dashboardStartGenerations, dashboardStopsInFlight := map[], map[], map[], map[];
      dashboardCleanupFailures, retryOwnership := {}, {};
      dashboardPoolStopping, dashboardPoolClosed, dashboardPoolShutdown := false, false, NoShutdown;
      startTasks, stopTasks, woken, procs, live := [], [], [], [], {};
      forgotten := {};
    }

    method SetStartPhase(i: StartId, phase: StartPhase)
      requires i < |startTasks|
      modifies this`startTasks
      ensures View() == SetStart(old(View()), i, phase)
    {
      startTasks := startTasks[i := startTasks[i].(phase := phase)];
    }

    method SetStopPhase(j: StopId, phase: StopPhase)
      requires j < |stopTasks|
      modifies this`stopTasks
      ensures View() == SetStop(old(View()), j, phase)
    {
      stopTasks := stopTasks[j := stopTasks[j].(phase := phase)];
    }

    method GetManagedDashboard(key: Key) returns (managed: Option<Proc>)
      modifies this`dashboards
      ensures View() == DropDead(old(View()), key)
      ensures managed == Holding(View(), key)
    {
      if key !in dashboards { return None; }
      if dashboards[key] in retryOwnership || dashboards[key] in live {
        return Some(dashboards[key]);
      }
      dashboards := dashboards - {key};
      managed := None;
    }

    /** A local status poll: running with an entry whose process is there, unless a cleanup failure is on record. */
    method GetDashboardStatus(key: Key) returns (running: bool)
      modifies this`dashboards
      ensures View() == PollStatus(old(View()), key)
      ensures running <==>
        key !in dashboardCleanupFailures && key in old(dashboards) && Manageable(View(), old(dashboards)[key])
    {
      if key in dashboardCleanupFailures { return false; }
      var managed := GetManagedDashboard(key);
      running := managed.Some?;
    }

    method StartAfterStop(i: StartId, supported: bool)
      requires i < |startTasks|
      modifies this
      ensures View() == Admit(old(View()), i, supported)
    {
      var key := startTasks[i].key;
      if dashboardPoolClosed || dashboardPoolStopping {
        SetStartPhase(i, StartDone(NotRunning));
        return;
      }
      if key in dashboardStarts {
        SetStartPhase(i, StartDone(Joined(dashboardStarts[key])));
        return;
      }
      if key in dashboardCleanupFailures {
        SetStartPhase(i, StartDone(NotRunning));
        return;
      }
      var existing := GetManagedDashboard(key);
      if existing.Some? {
        SetStartPhase(i, StartDone(Running));
        return;
      }
      var generation := GenerationIn(dashboardStartGenerations, key);
      startTasks := startTasks[i := StartTask(key, generation, if supported then AwaitHealth else StartSettled(false))];
      dashboardStarts := dashboardStarts[key := i];
    }

    method StartDashboard(key: Key, supported: bool)
      modifies this
      ensures View() == CallStart(old(View()), key, supported)
    {
      if dashboardPoolClosed || dashboardPoolStopping {
        startTasks := startTasks + [StartTask(key, 0, StartDone(NotRunning))];
      } else if key in dashboardStopsInFlight {
        startTasks := startTasks + [StartTask(key, 0, AwaitStop(dashboardStopsInFlight[key]))];
      } else {
        startTasks := startTasks + [StartTask(key, 0, Admitting)];
        StartAfterStop(|startTasks| - 1, supported);
      }
    }

    method StartContinues(supported: bool)
      modifies this
      ensures View() == ResumeStart(old(View()), supported)
    {
      if woken == [] || woken[0] >= |startTasks| { return; }
      var i := woken[0];
      woken := woken[1..];
      if startTasks[i].phase == Woken(true) {
        StartAfterStop(i, supported);
      } else {
        SetStartPhase(i, StartDone(NotRunning));
      }
    }

    method GatewayProbed(i: StartId, healthy: Probe)
      modifies this
      ensures View() == AnswerHealth(old(View()), i, healthy)
    {
      if i >= |startTasks| || startTasks[i].phase != AwaitHealth { return; }
      var superseded := GenerationIn(dashboardStartGenerations, startTasks[i].key) != startTasks[i].generation;
      if healthy == Threw || superseded {
        SetStartPhase(i, StartSettled(false));
      } else if healthy == No {
        SetStartPhase(i, AwaitRecovery);
      } else {
        SetStartPhase(i, AwaitPort);
      }
    }

    method GatewayRecovered(i: StartId, recovered: Probe)
      modifies this
      ensures View() == AnswerRecovery(old(View()), i, recovered)
    {
      if i >= |startTasks| || startTasks[i].phase != AwaitRecovery { return; }
      var superseded := GenerationIn(dashboardStartGenerations, startTasks[i].key) != startTasks[i].generation;
      if recovered == Threw || superseded || recovered == No {
        SetStartPhase(i, StartSettled(false));
      } else {
        SetStartPhase(i, AwaitPort);
      }
    }

    /** Spawns only for a key no stop is working on, with none of its processes alive but what a stop forgot. */
    method PortFound(i: StartId, spawn: SpawnResult)
      requires Valid()
      modifies this
      ensures Valid() && View() == AnswerPort(old(View()), i, spawn)
      ensures SpawnedAlone(old(View()), View(), i)
    {
      hide Inv, SpawnedAlone;
      AnswerPortKeeps(View(), i, spawn);
      SpawnsAlone(View(), i, spawn);
      if i >= |startTasks| || startTasks[i].phase != AwaitPort { return; }
      var superseded := GenerationIn(dashboardStartGenerations, startTasks[i].key) != startTasks[i].generation;
      if superseded || spawn == SpawnThrew {
        SetStartPhase(i, StartSettled(false));
        return;
      }
      var key := startTasks[i].key;
      var proc := |procs|;
      procs := procs + [Spawned(key, i)];
      if spawn == SpawnedLive { live := live + {proc}; }
      dashboards := dashboards[key := proc];
      SetStartPhase(i, AwaitReady(proc));
    }

    method ReadinessKnown(i: StartId, ready: bool)
      modifies this
      ensures View() == AnswerReady(old(View()), i, ready)
    {
      if i >= |startTasks| || !startTasks[i].phase.AwaitReady? { return; }
      if !ready {
        SetStartPhase(i, AwaitCleanup(startTasks[i].phase.proc));
        return;
      }
      var superseded := GenerationIn(dashboardStartGenerations, startTasks[i].key) != startTasks[i].generation;
      if superseded {
        SetStartPhase(i, AwaitCleanup(startTasks[i].phase.proc));
      } else {
        SetStartPhase(i, StartSettled(true));
      }
    }

    /** terminateDashboardProcess settles with this result. */
    method TerminationSettles(p: Proc, result: Termination)
      modifies this`live, this`retryOwnership
      ensures View() == Terminated(old(View()), p, result)
    {
      if result.Exited? {
        live := live - {p};
        retryOwnership := retryOwnership - {p};
      } else if result.retry {
        retryOwnership := retryOwnership + {p};
      }
    }

    method StartCleanupSettles(i: StartId, result: Termination)
      modifies this
      ensures View() == AnswerCleanup(old(View()), i, result)
    {
      if i >= |startTasks| || !startTasks[i].phase.AwaitCleanup? { return; }
      var proc := startTasks[i].phase.proc;
      var key := startTasks[i].key;
      TerminationSettles(proc, result);
      if result.Exited? {
        if key in dashboards && dashboards[key] == proc { dashboards := dashboards - {key}; }
        dashboardCleanupFailures := dashboardCleanupFailures - {key};
      } else {
        dashboardCleanupFailures := dashboardCleanupFailures + {key};
        if key !in dashboards { dashboards := dashboards[key := proc]; }
      }
      SetStartPhase(i, StartSettled(false));
    }

    method StartReleases(i: StartId)
      modifies this
      ensures View() == ReturnStart(old(View()), i)
    {
      if i >= |startTasks| || !startTasks[i].phase.StartSettled? { return; }
      var key := startTasks[i].key;
      if key in dashboardStarts && dashboardStarts[key] == i {
        dashboardStarts := dashboardStarts - {key};
      }
      SetStartPhase(i, StartDone(if startTasks[i].phase.running then Running else NotRunning));
    }

    method SupersedePendingStart(key: Key) returns (pendingStart: Option<StartId>)
      modifies this`dashboardStartGenerations, this`dashboardStarts
      ensures View() == Supersede(old(View()), key)
      ensures pendingStart == if key in old(dashboardStarts) then Some(old(dashboardStarts)[key]) else None
    {
      pendingStart := if key in dashboardStarts then Some(dashboardStarts[key]) else None;
      var generation := GenerationIn(dashboardStartGenerations, key);
      dashboardStartGenerations := dashboardStartGenerations[key := generation + 1];
      dashboardStarts := dashboardStarts - {key};
    }

    method StopDashboard(key: Key)
      modifies this
      ensures View() == CallStop(old(View()), key)
    {
      if key in dashboardStopsInFlight { return; }
      var pendingStart := SupersedePendingStart(key);
      var managed := if key in dashboards then Some(dashboards[key]) else None;
      dashboards := dashboards - {key};
      dashboardStopsInFlight := dashboardStopsInFlight[key := |stopTasks|];
      var phase := if managed.Some? then StopManaged else StopDraining(false);
      stopTasks := stopTasks + [StopTask(key, managed, pendingStart, phase)];
    }

    method StopTerminationSettles(j: StopId, result: Termination)
      modifies this
      ensures View() == AnswerStop(old(View()), j, result)
    {
      if j >= |stopTasks| || stopTasks[j].phase != StopManaged || stopTasks[j].managed.None? { return; }
      var managed := stopTasks[j].managed.value;
      TerminationSettles(managed, result);
      SetStopPhase(j, StopDraining(result.Survived?));
    }

    method StopConcludes(j: StopId, late: Option<Proc>, failed: bool)
      requires j < |stopTasks|
      modifies this
      ensures View() == Conclude(old(View()), j, late, failed)
    {
      var key := stopTasks[j].key;
      if failed {
        if key !in dashboards {
          if late.Some? {
            dashboards := dashboards[key := late.value];
          } else if stopTasks[j].managed.Some? {
            dashboards := dashboards[key := stopTasks[j].managed.value];
          }
        }
        dashboardCleanupFailures := dashboardCleanupFailures + {key};
        SetStopPhase(j, StopSettled(false));
      } else {
        dashboardCleanupFailures := dashboardCleanupFailures - {key};
        SetStopPhase(j, StopSettled(true));
      }
    }

    method StopDrained(j: StopId)
      modifies this
      ensures View() == ElapseDrain(old(View()), j)
    {
      if j >= |stopTasks| || !stopTasks[j].phase.StopDraining? { return; }
      var key := stopTasks[j].key;
      var failed := stopTasks[j].phase.failed;
      var late := if key in dashboards then Some(dashboards[key]) else None;
      if late.Some? && late != stopTasks[j].managed {
        dashboards := dashboards - {key};
        SetStopPhase(j, StopLate(late.value, failed));
      } else {
        StopConcludes(j, late, failed);
      }
    }

    method StopLateSettles(j: StopId, result: Termination)
      modifies this
      ensures View() == AnswerLate(old(View()), j, result)
    {
      if j >= |stopTasks| || !stopTasks[j].phase.StopLate? { return; }
      var late := stopTasks[j].phase.late;
      var failed := stopTasks[j].phase.failed;
      TerminationSettles(late, result);
      ghost var gone := LetGo(View(), stopTasks[j]);
      StopConcludes(j, Some(late), failed || result.Survived?);
      forgotten := forgotten + gone;
    }

    /** Settling the stop promise queues the continuations of the starts that await it. */
    method WakeWaiters(j: StopId, ok: bool)
      modifies this`woken, this`startTasks
      ensures View() == Wake(old(View()), j, ok)
    {
      ghost var before := View();
      var waiters: seq<StartId> := [];
      var tasks: seq<StartTask> := [];
      var i := |startTasks|;
      while i > 0
        invariant 0 <= i <= |startTasks|
        invariant startTasks == before.startTasks && woken == before.woken
        invariant waiters == WaitersFrom(startTasks, j, i)
        invariant |tasks| == |startTasks| - i
        invariant forall k :: 0 <= k < |tasks| ==> tasks[k] == WakeTask(startTasks[i + k], j, ok)
      {
        i := i - 1;
        if startTasks[i].phase == AwaitStop(j) { waiters := [i] + waiters; }
        tasks := [WakeTask(startTasks[i], j, ok)] + tasks;
      }
      woken := woken + waiters;
      startTasks := tasks;
      assert startTasks == Wake(before, j, ok).startTasks;
    }

    method StopReleases(j: StopId)
      modifies this
      ensures View() == ReturnStop(old(View()), j)
    {
      if j >= |stopTasks| || !stopTasks[j].phase.StopSettled? { return; }
      var key := stopTasks[j].key;
      var ok := stopTasks[j].phase.ok;
      if key in dashboardStopsInFlight && dashboardStopsInFlight[key] == j {
        dashboardStopsInFlight := dashboardStopsInFlight - {key};
      }
      SetStopPhase(j, StopDone);
      WakeWaiters(j, ok);
      if dashboardPoolShutdown.Draining? {
        var waiting := dashboardPoolShutdown.waiting;
        var failed := dashboardPoolShutdown.failed || (j in waiting && !ok);
        dashboardPoolShutdown := Draining(waiting - {j}, failed);
      }
    }

    /** One round of the loop in stopAllDashboards. */
    method ShutdownPass(order: seq<Key>)
      modifies this
      ensures View() == Pass(old(View()), order)
    {
      ghost var before := View();
      if dashboards.Keys + dashboardStarts.Keys + dashboardStopsInFlight.Keys == {} {
        dashboardPoolShutdown := Ended(true);
        return;
      }
      var rest := order;
      while rest != []
        invariant CallStops(View(), rest) == CallStops(before, order)
        decreases |rest|
      {
        StopDashboard(rest[0]);
        rest := rest[1..];
      }
      dashboardPoolShutdown :=
        Draining(set k | k in dashboardStopsInFlight && k in order :: dashboardStopsInFlight[k], false);
    }

    /** A call that finds nothing to stop resolves, with nothing alive but what a stop forgot. */
    method StopAllDashboards(closePool: bool, order: seq<Key>)
      requires Valid() && woken == [] && Lists(order, Keys(View()))
      modifies this
      ensures Valid() && View() == CallShutdown(old(View()), closePool, order)
      ensures ResolvedEmpty(old(View()), View())
    {
      hide Inv, Pass, ResolvedEmpty, Lists;
      CallShutdownKeeps(View(), closePool, order);
      ResolvesEmpty(View(), ShutdownCalled(closePool, order));
      if closePool { dashboardPoolClosed := true; }
      if dashboardPoolShutdown != NoShutdown { return; }
      dashboardPoolStopping := true;
      ShutdownPass(order);
    }

    method ShutdownContinues(order: seq<Key>)
      requires Valid() && woken == [] && Lists(order, Keys(View()))
      modifies this
      ensures Valid() && View() == EndPass(old(View()), order)
      ensures ResolvedEmpty(old(View()), View())
    {
      hide Inv, Pass, ResolvedEmpty, Lists;
      EndPassKeeps(View(), order);
      ResolvesEmpty(View(), ShutdownPassEnded(order));
      if !dashboardPoolShutdown.Draining? || dashboardPoolShutdown.waiting != {} { return; }
      if dashboardPoolShutdown.failed {
        dashboardPoolShutdown := Ended(false);
      } else {
        ShutdownPass(order);
      }
    }

    method ShutdownReleases()
      modifies this
      ensures View() == ReturnShutdown(old(View()))
    {
      if !dashboardPoolShutdown.Ended? { return; }
      dashboardPoolShutdown := NoShutdown;
      if !dashboardPoolClosed { dashboardPoolStopping := false; }
    }

    method ProcessExitEmitted(proc: Proc)
      modifies this
      ensures View() == EmitExit(old(View()), proc)
    {
      if proc >= |procs| { return; }
      var key := procs[proc].key;
      if key in dashboards && dashboards[key] == proc && key !in dashboardCleanupFailures && proc !in live {
        dashboards := dashboards - {key};
      }
    }

    method HandleStart(e: Event)
      requires Valid() && Enabled(View(), e)
      requires e.StartCalled? || e.StartResumed? || e.HealthAnswered? || e.RecoveryAnswered? || e.PortAnswered?
               || e.ReadyAnswered? || e.CleanupAnswered? || e.StartReturned?
      modifies this
      ensures View() == Step(old(View()), e)
    {
      match e
      case StartCalled(key, supported) => StartDashboard(key, supported);
      case StartResumed(supported) => StartContinues(supported);
      case HealthAnswered(i, healthy) => GatewayProbed(i, healthy);
      case RecoveryAnswered(i, recovered) => GatewayRecovered(i, recovered);
      case PortAnswered(i, spawn) => PortFound(i, spawn);
      case ReadyAnswered(i, ready) => ReadinessKnown(i, ready);
      case CleanupAnswered(i, result) => StartCleanupSettles(i, result);
      case StartReturned(i) => StartReleases(i);
    }

    /** The code that runs when the event happens; an event that cannot happen now is passed over. */
    method Handle(e: Event)
      requires Valid()
      modifies this
      ensures Valid() && View() == if Enabled(old(View()), e) then Step(old(View()), e) else old(View())
    {
      if woken != [] && !e.StartResumed? && !e.ProcessDied? { return; }
      var keys := dashboards.Keys + dashboardStarts.Keys + dashboardStopsInFlight.Keys;
      if (e.ShutdownCalled? || e.ShutdownPassEnded?) && !Lists(e.order, keys) { return; }
      StepKeeps(View(), e);
      match e
      case StopCalled(key) => StopDashboard(key);
      case StopTerminated(j, result) => StopTerminationSettles(j, result);
      case StopDrainElapsed(j) => StopDrained(j);
      case StopLateTerminated(j, result) => StopLateSettles(j, result);
      case StopReturned(j) => StopReleases(j);
      case ShutdownCalled(close, order) => StopAllDashboards(close, order);
      case ShutdownPassEnded(order) => ShutdownContinues(order);
      case ShutdownReturned => ShutdownReleases();
      case ProcessDied(p) => live := live - {p};
      case ExitEmitted(p) => ProcessExitEmitted(p);
      case StatusPolled(key) => var _ := GetDashboardStatus(key);
      case _ => HandleStart(e);
    }

    /** A whole run of the module is the run of the pool, so every law of DashboardPool holds of the object. */
    method Play(es: seq<Event>)
      requires Valid()
      modifies this
      ensures Valid() && View() == Run(old(View()), es)
    {
      for n := 0 to |es|
        invariant Valid() && View() == Run(old(View()), es[..n])
      {
        assert es[..n + 1][..n] == es[..n];
        Handle(es[n]);
      }
      assert es[..|es|] == es;
    }
  }
}
