/** Runs of the pool that meet a late process, and one that loses a live process by it. */
module DashboardRuns {
  import opened Wrappers
  import opened DashboardPool

  predicate Leads(s: Pool, e: Event, t: Pool) {
    Enabled(s, e) && t == Step(s, e)
  }

  /** Event n takes the run to state t. */
  lemma Then(es: seq<Event>, n: nat, s: Pool, e: Event, t: Pool)
    requires n < |es| && es[n] == e && Run(Initial, es[..n]) == s && Leads(s, e, t)
    ensures Run(Initial, es[..n + 1]) == t
  {
    assert es[..n + 1][..n] == es[..n];
  }

  lemma Starts(es: seq<Event>)
    ensures Run(Initial, es[..0]) == Initial
  {
  }

  const KEY: Key := "k"

  /** A start whose root dies during its readiness check, with its exit handled before the cleanup is over. */
  const RootDies: seq<Event> := [
    StartCalled(KEY, true), HealthAnswered(0, Yes), PortAnswered(0, SpawnedLive), ReadyAnswered(0, false),
    ProcessDied(0), ExitEmitted(0)]

  const Cleaning: StartTask := StartTask(KEY, 0, AwaitCleanup(0))

  const A1: Pool := Initial.(starts := map[KEY := 0], startTasks := [StartTask(KEY, 0, AwaitHealth)])
  const A2: Pool := A1.(startTasks := [StartTask(KEY, 0, AwaitPort)])
  const A3: Pool :=
    A1.(startTasks := [StartTask(KEY, 0, AwaitReady(0))], procs := [Spawned(KEY, 0)], live := {0},
        dashboards := map[KEY := 0])
  const A4: Pool := A3.(startTasks := [Cleaning])
  const A5: Pool := A4.(live := {})
  const A6: Pool := A5.(dashboards := map[])

  lemma Admitted()
    ensures Leads(Initial, StartCalled(KEY, true), A1)
    ensures Leads(A1, HealthAnswered(0, Yes), A2)
  {
  }

  lemma Spawns()
    ensures Leads(A2, PortAnswered(0, SpawnedLive), A3)
  {
  }

  lemma Dies()
    ensures Leads(A3, ReadyAnswered(0, false), A4)
    ensures Leads(A4, ProcessDied(0), A5)
  {
  }

  lemma Exits()
    ensures Leads(A5, ExitEmitted(0), A6)
  {
    assert A5.dashboards - {KEY} == map[];
  }

  lemma {:induction false} RootDiesRuns(es: seq<Event>)
    requires RootDies <= es
    ensures Run(Initial, es[..6]) == A6
  {
    hide Run, Leads;
    Starts(es);
    Admitted();
    Spawns();
    Dies();
    Exits();
    assert forall i :: 0 <= i < 6 ==> es[i] == RootDies[i];
    hide A1, A2, A3, A4, A5, A6;
    Then(es, 0, Initial, StartCalled(KEY, true), A1);
    Then(es, 1, A1, HealthAnswered(0, Yes), A2);
    Then(es, 2, A2, PortAnswered(0, SpawnedLive), A3);
    Then(es, 3, A3, ReadyAnswered(0, false), A4);
    Then(es, 4, A4, ProcessDied(0), A5);
    Then(es, 5, A5, ExitEmitted(0), A6);
  }

  // ---------------------------------------------------------------------
  // A late process
  // ---------------------------------------------------------------------

  /** A stop that finds nothing in the map while the cleanup of the start is under way. */
  const A7: Pool :=
    A6.(generations := map[KEY := 1], starts := map[], stops := map[KEY := 0],
        stopTasks := [StopTask(KEY, None, Some(0), StopDraining(false))])

  const B8: Pool :=
    A7.(startTasks := [Cleaning.(phase := StartSettled(false))], dashboards := map[KEY := 0], failures := {KEY}, retained := {0})
  const B9: Pool := B8.(dashboards := map[], stopTasks := [StopTask(KEY, None, Some(0), StopLate(0, false))])

  lemma StopFindsNothing()
    ensures Leads(A6, StopCalled(KEY), A7)
  {
    assert A6.starts - {KEY} == map[] && A6.dashboards - {KEY} == map[];
  }

  lemma CleanupPutsItBack()
    ensures Leads(A7, CleanupAnswered(0, Survived(true)), B8)
  {
  }

  lemma TurnsToLate()
    ensures Leads(B8, StopDrainElapsed(0), B9)
  {
    assert B8.dashboards - {KEY} == map[];
  }

  lemma LateState()
    ensures B9.stopTasks == [StopTask(KEY, None, Some(0), StopLate(0, false))] && B9.live == {}
  {
  }

  /** A stop meets the descendants of a dead root: the cleanup reports them while the stop drains. */
  lemma {:induction false} LateProcessComes(es: seq<Event>)
    requires |es| == 9 && RootDies <= es && es[6] == StopCalled(KEY)
    requires es[7] == CleanupAnswered(0, Survived(true)) && es[8] == StopDrainElapsed(0)
    ensures var s := Run(Initial, es);
      s.stopTasks == [StopTask(KEY, None, Some(0), StopLate(0, false))] && s.live == {}
  {
    LateState();
    hide Run, Leads, A6, A7, B8, B9;
    RootDiesRuns(es);
    StopFindsNothing();
    CleanupPutsItBack();
    TurnsToLate();
    Then(es, 6, A6, StopCalled(KEY), A7);
    Then(es, 7, A7, CleanupAnswered(0, Survived(true)), B8);
    Then(es, 8, B8, StopDrainElapsed(0), B9);
    assert es[..9] == es;
  }

  // ---------------------------------------------------------------------
  // A forgotten one
  // ---------------------------------------------------------------------

  const C8: Pool := A7.(stopTasks := [StopTask(KEY, None, Some(0), StopSettled(true))])
  const C9: Pool := A7.(stops := map[], stopTasks := [Stopped])
  const C10: Pool := C9.(starts := map[KEY := 1], startTasks := [Cleaning, StartTask(KEY, 1, AwaitHealth)])
  const C11: Pool := C10.(startTasks := [Cleaning, StartTask(KEY, 1, AwaitPort)])
  const C12: Pool :=
    C10.(startTasks := [Cleaning, StartTask(KEY, 1, AwaitReady(1))], procs := [Spawned(KEY, 0), Spawned(KEY, 1)],
         live := {1}, dashboards := map[KEY := 1])
  const C13: Pool := C12.(startTasks := [Cleaning, StartTask(KEY, 1, StartSettled(true))])
  const C14: Pool := C13.(startTasks := [Cleaning, StartTask(KEY, 1, StartDone(Running))], starts := map[])

  const Stopped: StopTask := StopTask(KEY, None, Some(0), StopDone)

  /** The drain of the stop times out, and a second start serves with process 1. */
  const Serves: seq<Event> := [
    StopCalled(KEY), StopDrainElapsed(0), StopReturned(0), StartCalled(KEY, true), HealthAnswered(1, Yes),
    PortAnswered(1, SpawnedLive), ReadyAnswered(1, true), StartReturned(1)]

  lemma DrainTimesOut()
    ensures Leads(A7, StopDrainElapsed(0), C8)
  {
  }

  lemma StopReturns()
    ensures Leads(C8, StopReturned(0), C9)
  {
    var s := ReleaseStop(C8, 0);
    assert C8.stops - {KEY} == map[];
    assert WaitersFrom(s.startTasks, 0, 0) == [] by {
      assert WaitersFrom(s.startTasks, 0, 1) == [];
    }
    assert Wake(s, 0, true).startTasks == s.startTasks;
  }

  lemma StartsAgain()
    ensures Leads(C9, StartCalled(KEY, true), C10)
    ensures Leads(C10, HealthAnswered(1, Yes), C11)
  {
  }

  lemma SpawnsAgain()
    ensures Leads(C11, PortAnswered(1, SpawnedLive), C12)
  {
  }

  lemma IsReady()
    ensures Leads(C12, ReadyAnswered(1, true), C13)
    ensures Leads(C13, StartReturned(1), C14)
  {
    assert C13.starts - {KEY} == map[];
  }

  lemma ServesEvents(es: seq<Event>)
    requires |es| >= 14 && es[6..14] == Serves
    ensures es[6] == StopCalled(KEY) && es[7] == StopDrainElapsed(0) && es[8] == StopReturned(0)
    ensures es[9] == StartCalled(KEY, true) && es[10] == HealthAnswered(1, Yes)
    ensures es[11] == PortAnswered(1, SpawnedLive) && es[12] == ReadyAnswered(1, true) && es[13] == StartReturned(1)
  {
    assert forall i :: 6 <= i < 14 ==> es[i] == es[6..14][i - 6];
  }

  lemma {:induction false} SecondStartServes(es: seq<Event>)
    requires RootDies <= es && |es| >= 14 && es[6..14] == Serves
    ensures Run(Initial, es[..14]) == C14
  {
    hide Run, Leads, A6, A7, C8, C9, C10, C11, C12, C13, C14;
    RootDiesRuns(es);
    StopFindsNothing();
    DrainTimesOut();
    StopReturns();
    StartsAgain();
    SpawnsAgain();
    IsReady();
    ServesEvents(es);
    Then(es, 6, A6, StopCalled(KEY), A7);
    Then(es, 7, A7, StopDrainElapsed(0), C8);
    Then(es, 8, C8, StopReturned(0), C9);
    Then(es, 9, C9, StartCalled(KEY, true), C10);
    Then(es, 10, C10, HealthAnswered(1, Yes), C11);
    Then(es, 11, C11, PortAnswered(1, SpawnedLive), C12);
    Then(es, 12, C12, ReadyAnswered(1, true), C13);
    Then(es, 13, C13, StartReturned(1), C14);
  }

  const C15: Pool :=
    C14.(generations := map[KEY := 2], dashboards := map[], stops := map[KEY := 1],
         stopTasks := [Stopped, StopTask(KEY, Some(1), None, StopManaged)])
  const C16: Pool := C15.(stopTasks := [Stopped, StopTask(KEY, Some(1), None, StopDraining(true))])
  const C17: Pool :=
    C16.(startTasks := [Cleaning.(phase := StartSettled(false)), StartTask(KEY, 1, StartDone(Running))], dashboards := map[KEY := 0],
         failures := {KEY}, retained := {0})
  const C18: Pool := C17.(dashboards := map[], stopTasks := [Stopped, StopTask(KEY, Some(1), None, StopLate(0, true))])
  const C19: Pool :=
    C18.(dashboards := map[KEY := 0], retained := {}, forgotten := {1},
         stopTasks := [Stopped, StopTask(KEY, Some(1), None, StopSettled(false))])

  /** A second stop cannot terminate process 1, while the first start's cleanup puts process 0 back. */
  const Loses: seq<Event> := [
    StopCalled(KEY), StopTerminated(1, Survived(false)), CleanupAnswered(0, Survived(true)), StopDrainElapsed(1),
    StopLateTerminated(1, Exited)]

  lemma StopTakesOut()
    ensures Leads(C14, StopCalled(KEY), C15)
    ensures Leads(C15, StopTerminated(1, Survived(false)), C16)
  {
    assert C14.starts - {KEY} == map[] && C14.dashboards - {KEY} == map[];
  }

  lemma OldOneComesBack()
    ensures Leads(C16, CleanupAnswered(0, Survived(true)), C17)
  {
  }

  lemma TurnsToOldOne()
    ensures Leads(C17, StopDrainElapsed(1), C18)
  {
    assert C17.dashboards - {KEY} == map[];
  }

  lemma OldOneTakesThePlace()
    ensures Leads(C18, StopLateTerminated(1, Exited), C19)
  {
    assert C18.live - {0} == {1} && C18.retained - {0} == {};
  }

  lemma LosesEvents(es: seq<Event>)
    requires |es| >= 19 && es[14..19] == Loses
    ensures es[14] == StopCalled(KEY) && es[15] == StopTerminated(1, Survived(false))
    ensures es[16] == CleanupAnswered(0, Survived(true)) && es[17] == StopDrainElapsed(1)
    ensures es[18] == StopLateTerminated(1, Exited)
  {
    assert forall i :: 14 <= i < 19 ==> es[i] == es[14..19][i - 14];
  }

  predicate LosesProcess(es: seq<Event>) {
    RootDies <= es && |es| >= 19 && es[6..14] == Serves && es[14..19] == Loses
  }

  lemma {:induction false} LosesRuns(es: seq<Event>)
    requires LosesProcess(es)
    ensures Run(Initial, es[..19]) == C19
  {
    hide Run, Leads, C14, C15, C16, C17, C18, C19;
    SecondStartServes(es);
    StopTakesOut();
    OldOneComesBack();
    TurnsToOldOne();
    OldOneTakesThePlace();
    LosesEvents(es);
    Then(es, 14, C14, StopCalled(KEY), C15);
    Then(es, 15, C15, StopTerminated(1, Survived(false)), C16);
    Then(es, 16, C16, CleanupAnswered(0, Survived(true)), C17);
    Then(es, 17, C17, StopDrainElapsed(1), C18);
    Then(es, 18, C18, StopLateTerminated(1, Exited), C19);
  }

  lemma LostState()
    ensures C19.live == {1} && C19.procs == [Spawned(KEY, 0), Spawned(KEY, 1)] && C19.dashboards == map[KEY := 0]
    ensures !Held(KEY, 1, C19.dashboards, C19.stops, C19.stopTasks)
  {
  }

  /** A live root that nothing holds any more, although its stop failed and its start had served. */
  lemma {:induction false} LiveProcessLost(es: seq<Event>)
    requires LosesProcess(es) && |es| == 19
    ensures var s := Run(Initial, es);
      && s.live == {1} && s.procs == [Spawned(KEY, 0), Spawned(KEY, 1)]
      && s.dashboards == map[KEY := 0]
      && !Held(KEY, 1, s.dashboards, s.stops, s.stopTasks)
  {
    LostState();
    LosesRuns(es);
    assert es[..19] == es;
  }

  // ---------------------------------------------------------------------
  // Two alive for one key
  // ---------------------------------------------------------------------

  const Failed: StopTask := StopTask(KEY, Some(1), None, StopDone)

  const C20: Pool := C19.(stops := map[], stopTasks := [Stopped, Failed])
  const C21: Pool :=
    C20.(generations := map[KEY := 3], dashboards := map[], stops := map[KEY := 2],
         stopTasks := [Stopped, Failed, StopTask(KEY, Some(0), None, StopManaged)])
  const C22: Pool := C21.(stopTasks := [Stopped, Failed, StopTask(KEY, Some(0), None, StopDraining(false))])
  const C23: Pool :=
    C22.(failures := {}, stopTasks := [Stopped, Failed, StopTask(KEY, Some(0), None, StopSettled(true))])
  const C24: Pool := C23.(stops := map[], stopTasks := [Stopped, Failed, StopTask(KEY, Some(0), None, StopDone)])
  const C25: Pool := C24.(starts := map[KEY := 2], startTasks := C24.startTasks + [StartTask(KEY, 3, AwaitHealth)])
  const C26: Pool := C25.(startTasks := C24.startTasks + [StartTask(KEY, 3, AwaitPort)])
  const C27: Pool :=
    C26.(startTasks := C24.startTasks + [StartTask(KEY, 3, AwaitReady(2))], procs := C26.procs + [Spawned(KEY, 2)],
         live := {1, 2}, dashboards := map[KEY := 2])

  /** A third stop ends what the second one put back, and a third start spawns. */
  const SpawnsBeside: seq<Event> := [
    StopReturned(1), StopCalled(KEY), StopTerminated(2, Exited), StopDrainElapsed(2), StopReturned(2),
    StartCalled(KEY, true), HealthAnswered(2, Yes), PortAnswered(2, SpawnedLive)]

  lemma NobodyWaits(s: Pool, j: StopId, ok: bool)
    requires |s.startTasks| == 2 && !s.startTasks[0].phase.AwaitStop? && !s.startTasks[1].phase.AwaitStop?
    ensures Wake(s, j, ok) == s
  {
    assert WaitersFrom(s.startTasks, j, 2) == [];
    assert WaitersFrom(s.startTasks, j, 1) == [];
    assert WaitersFrom(s.startTasks, j, 0) == [];
    assert Wake(s, j, ok).startTasks == s.startTasks;
    assert s.woken + [] == s.woken;
  }

  lemma FailedStopReturns()
    ensures Leads(C19, StopReturned(1), C20)
  {
    hide Wake;
    assert C19.stops - {KEY} == map[];
    NobodyWaits(ReleaseStop(C19, 1), 1, false);
  }

  lemma ThirdStopTakesOut()
    ensures Leads(C20, StopCalled(KEY), C21)
  {
    assert C20.starts - {KEY} == map[] && C20.dashboards - {KEY} == map[];
  }

  lemma ThirdStopTerminates()
    ensures Leads(C21, StopTerminated(2, Exited), C22)
  {
    assert C21.live - {0} == {1} && C21.retained - {0} == {};
  }

  lemma ThirdStopConcludes()
    ensures Leads(C22, StopDrainElapsed(2), C23)
  {
    assert C22.failures - {KEY} == {};
  }

  lemma ThirdStopReturns()
    ensures Leads(C23, StopReturned(2), C24)
  {
    hide Wake;
    assert C23.stops - {KEY} == map[];
    NobodyWaits(ReleaseStop(C23, 2), 2, true);
  }

  lemma ThirdStartGoes()
    ensures Leads(C24, StartCalled(KEY, true), C25)
    ensures Leads(C25, HealthAnswered(2, Yes), C26)
  {
  }

  lemma ThirdStartSpawns()
    ensures Leads(C26, PortAnswered(2, SpawnedLive), C27)
  {
  }

  lemma SpawnsBesideEvents(es: seq<Event>)
    requires |es| == 27 && es[19..] == SpawnsBeside
    ensures es[19] == StopReturned(1) && es[20] == StopCalled(KEY) && es[21] == StopTerminated(2, Exited)
    ensures es[22] == StopDrainElapsed(2) && es[23] == StopReturned(2) && es[24] == StartCalled(KEY, true)
    ensures es[25] == HealthAnswered(2, Yes) && es[26] == PortAnswered(2, SpawnedLive)
  {
    assert forall i :: 19 <= i < 27 ==> es[i] == es[19..][i - 19];
  }

  lemma TwoState()
    ensures C27.live == {1, 2} && C27.procs == [Spawned(KEY, 0), Spawned(KEY, 1), Spawned(KEY, 2)]
    ensures C27.forgotten == {1} && C27.dashboards == map[KEY := 2]
  {
  }

  lemma {:induction false} ThirdStopRuns(es: seq<Event>)
    requires LosesProcess(es) && |es| == 27 && es[19..] == SpawnsBeside
    ensures Run(Initial, es[..24]) == C24
  {
    hide Run, Leads, LosesProcess, C19, C20, C21, C22, C23, C24;
    LosesRuns(es);
    FailedStopReturns();
    ThirdStopTakesOut();
    ThirdStopTerminates();
    ThirdStopConcludes();
    ThirdStopReturns();
    SpawnsBesideEvents(es);
    Then(es, 19, C19, StopReturned(1), C20);
    Then(es, 20, C20, StopCalled(KEY), C21);
    Then(es, 21, C21, StopTerminated(2, Exited), C22);
    Then(es, 22, C22, StopDrainElapsed(2), C23);
    Then(es, 23, C23, StopReturned(2), C24);
  }

  /** What the forgotten process leads to: a later start spawns a second live process of the same key beside it. */
  lemma {:induction false} TwoLiveForOneKey(es: seq<Event>)
    requires LosesProcess(es) && |es| == 27 && es[19..] == SpawnsBeside
    ensures var s := Run(Initial, es);
      && s.live == {1, 2} && s.procs == [Spawned(KEY, 0), Spawned(KEY, 1), Spawned(KEY, 2)]
      && s.dashboards == map[KEY := 2] && s.forgotten == {1}
  {
    TwoState();
    hide Run, Leads, LosesProcess, C24, C25, C26, C27;
    ThirdStopRuns(es);
    ThirdStartGoes();
    ThirdStartSpawns();
    SpawnsBesideEvents(es);
    Then(es, 24, C24, StartCalled(KEY, true), C25);
    Then(es, 25, C25, HealthAnswered(2, Yes), C26);
    Then(es, 26, C26, PortAnswered(2, SpawnedLive), C27);
    assert es[..27] == es;
  }
}
