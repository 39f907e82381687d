/**
 * The pool of local Dashboards: concurrent starts, stops and shutdowns over the
 * module's maps. One function per synchronous segment between two awaits; an
 * event says which promise settled and how.
 */
module DashboardPool {
  import opened Wrappers

  type Key = string
  type Proc = nat
  type StartId = nat
  type StopId = nat

  /** What a start call answers: what it did itself, or what the start holding the slot will answer. */
  datatype Answer = Running | NotRunning | Joined(start: StartId)

  datatype StartPhase =
    | Admitting
    | AwaitStop(stop: StopId)
    | Woken(stopped: bool)
    | AwaitHealth
    | AwaitRecovery
    | AwaitPort
    | AwaitReady(proc: Proc)
    | AwaitCleanup(proc: Proc)
    | StartSettled(running: bool)
    | StartDone(answer: Answer)

  datatype StartTask = StartTask(key: Key, generation: nat, phase: StartPhase)

  datatype StopPhase =
    | StopManaged
    | StopDraining(failed: bool)
    | StopLate(late: Proc, failed: bool)
    | StopSettled(ok: bool)
    | StopDone

  datatype StopTask = StopTask(key: Key, managed: Option<Proc>, pendingStart: Option<StartId>, phase: StopPhase)

  datatype Shutdown = NoShutdown | Draining(waiting: set<StopId>, failed: bool) | Ended(ok: bool)

  /** A process that was spawned, for which key and by which start. */
  datatype Spawned = Spawned(key: Key, start: StartId)

  /**
   * `retained` holds the processes with a retry handle; `live` those whose root
   * is alive, which is what a liveness probe and an exit event are about. A
   * termination speaks of the whole tree and may find survivors of a dead root.
   * `forgotten` is history that nothing reads: the live processes a failed stop
   * let go of.
   */
  datatype Pool = Pool(
    dashboards: map<Key, Proc>,
    starts: map<Key, StartId>,
    generations: map<Key, nat>,
    stops: map<Key, StopId>,
    failures: set<Key>,
    retained: set<Proc>,
    poolStopping: bool,
    poolClosed: bool,
    shutdown: Shutdown,
    startTasks: seq<StartTask>,
    stopTasks: seq<StopTask>,
    woken: seq<StartId>,
    procs: seq<Spawned>,
    live: set<Proc>,
    forgotten: set<Proc>)

  const Initial: Pool :=
    Pool(map[], map[], map[], map[], {}, {}, false, false, NoShutdown, [], [], [], [], {}, {})

  datatype Probe = Yes | No | Threw

  datatype Termination = Exited | Survived(retry: bool)

  datatype SpawnResult = SpawnedLive | SpawnedDead | SpawnThrew

  datatype Event =
    | StartCalled(key: Key, supported: bool)
    | StartResumed(supported: bool)
    | HealthAnswered(start: StartId, healthy: Probe)
    | RecoveryAnswered(start: StartId, recovered: Probe)
    | PortAnswered(start: StartId, spawn: SpawnResult)
    | ReadyAnswered(start: StartId, ready: bool)
    | CleanupAnswered(start: StartId, result: Termination)
    | StartReturned(start: StartId)
    | StopCalled(key: Key)
    | StopTerminated(stop: StopId, result: Termination)
    | StopDrainElapsed(stop: StopId)
    | StopLateTerminated(stop: StopId, result: Termination)
    | StopReturned(stop: StopId)
    | ShutdownCalled(close: bool, order: seq<Key>)
    | ShutdownPassEnded(order: seq<Key>)
    | ShutdownReturned
    | ProcessDied(proc: Proc)
    | ExitEmitted(proc: Proc)
    | StatusPolled(key: Key)

  // ---------------------------------------------------------------------
  // Segments of a start
  // ---------------------------------------------------------------------

  function GenerationIn(generations: map<Key, nat>, key: Key): nat {
    if key in generations then generations[key] else 0
  }

  function Generation(s: Pool, key: Key): nat {
    GenerationIn(s.generations, key)
  }

  function SetStart(s: Pool, i: StartId, phase: StartPhase): Pool
    requires i < |s.startTasks|
  {
    s.(startTasks := s.startTasks[i := s.startTasks[i].(phase := phase)])
  }

  predicate Manageable(s: Pool, p: Proc) {
    p in s.retained || p in s.live
  }

  /** getManagedDashboard drops an entry whose process is gone. */
  function DropDead(s: Pool, key: Key): Pool {
    if key in s.dashboards && !Manageable(s, s.dashboards[key]) then s.(dashboards := s.dashboards - {key}) else s
  }

  /** startDashboard after any wait for a stop, up to the first await of startLocalDashboard. */
  function Admit(s: Pool, i: StartId, supported: bool): Pool
    requires i < |s.startTasks|
  {
    var key := s.startTasks[i].key;
    if s.poolClosed || s.poolStopping then SetStart(s, i, StartDone(NotRunning))
    else if key in s.starts then SetStart(s, i, StartDone(Joined(s.starts[key])))
    else if key in s.failures then SetStart(s, i, StartDone(NotRunning))
    else
      var s := DropDead(s, key);
      if key in s.dashboards then SetStart(s, i, StartDone(Running))
      else
        s.(starts := s.starts[key := i],
           startTasks := s.startTasks[i := StartTask(key, Generation(s, key), if supported then AwaitHealth else StartSettled(false))])
  }

  function CallStart(s: Pool, key: Key, supported: bool): Pool {
    if s.poolClosed || s.poolStopping then s.(startTasks := s.startTasks + [StartTask(key, 0, StartDone(NotRunning))])
    else
      var i := |s.startTasks|;
      if key in s.stops then s.(startTasks := s.startTasks + [StartTask(key, 0, AwaitStop(s.stops[key]))])
      else Admit(s.(startTasks := s.startTasks + [StartTask(key, 0, Admitting)]), i, supported)
  }

  function ResumeStart(s: Pool, supported: bool): Pool {
    if s.woken == [] || s.woken[0] >= |s.startTasks| then s
    else
      var i := s.woken[0];
      var s := s.(woken := s.woken[1..]);
      if s.startTasks[i].phase == Woken(true) then Admit(s, i, supported) else SetStart(s, i, StartDone(NotRunning))
  }

  predicate Superseded(s: Pool, i: StartId)
    requires i < |s.startTasks|
  {
    Generation(s, s.startTasks[i].key) != s.startTasks[i].generation
  }

  predicate InPhase(s: Pool, i: StartId, phase: StartPhase) {
    i < |s.startTasks| && s.startTasks[i].phase == phase
  }

  function AnswerHealth(s: Pool, i: StartId, healthy: Probe): Pool {
    if !InPhase(s, i, AwaitHealth) then s
    else if healthy == Threw || Superseded(s, i) then SetStart(s, i, StartSettled(false))
    else SetStart(s, i, if healthy == Yes then AwaitPort else AwaitRecovery)
  }

  function AnswerRecovery(s: Pool, i: StartId, recovered: Probe): Pool {
    if !InPhase(s, i, AwaitRecovery) then s
    else if recovered != Yes || Superseded(s, i) then SetStart(s, i, StartSettled(false))
    else SetStart(s, i, AwaitPort)
  }

  function Spawn(s: Pool, i: StartId, alive: bool): Pool
    requires i < |s.startTasks|
  {
    var key := s.startTasks[i].key;
    var p := |s.procs|;
    SetStart(s, i, AwaitReady(p)).(
      procs := s.procs + [Spawned(key, i)],
      live := if alive then s.live + {p} else s.live,
      dashboards := s.dashboards[key := p])
  }

  function AnswerPort(s: Pool, i: StartId, spawn: SpawnResult): Pool {
    if !InPhase(s, i, AwaitPort) then s
    else if Superseded(s, i) || spawn == SpawnThrew then SetStart(s, i, StartSettled(false))
    else Spawn(s, i, spawn == SpawnedLive)
  }

  function AnswerReady(s: Pool, i: StartId, ready: bool): Pool {
    if i >= |s.startTasks| || !s.startTasks[i].phase.AwaitReady? then s
    else if !ready || Superseded(s, i) then SetStart(s, i, AwaitCleanup(s.startTasks[i].phase.proc))
    else SetStart(s, i, StartSettled(true))
  }

  function Terminated(s: Pool, p: Proc, result: Termination): Pool {
    if result.Exited? then s.(live := s.live - {p}, retained := s.retained - {p})
    else if result.retry then s.(retained := s.retained + {p})
    else s
  }

  function Holding(s: Pool, key: Key): Option<Proc> {
    if key in s.dashboards then Some(s.dashboards[key]) else None
  }

  function ForgetExited(s: Pool, key: Key, p: Proc): Pool {
    s.(dashboards := if Holding(s, key) == Some(p) then s.dashboards - {key} else s.dashboards,
       failures := s.failures - {key})
  }

  /** Keep the exact handle of a process that survived, unless the key holds another entry. */
  function RememberSurvivor(s: Pool, key: Key, p: Proc): Pool {
    s.(dashboards := if key !in s.dashboards then s.dashboards[key := p] else s.dashboards,
       failures := s.failures + {key})
  }

  function AnswerCleanup(s: Pool, i: StartId, result: Termination): Pool {
    if i >= |s.startTasks| || !s.startTasks[i].phase.AwaitCleanup? then s
    else
      var key := s.startTasks[i].key;
      var p := s.startTasks[i].phase.proc;
      var s := SetStart(Terminated(s, p, result), i, StartSettled(false));
      if result.Exited? then ForgetExited(s, key, p) else RememberSurvivor(s, key, p)
  }

  function ReturnStart(s: Pool, i: StartId): Pool {
    if i >= |s.startTasks| || !s.startTasks[i].phase.StartSettled? then s
    else
      var key := s.startTasks[i].key;
      SetStart(s, i, StartDone(if s.startTasks[i].phase.running then Running else NotRunning)).(
        starts := if key in s.starts && s.starts[key] == i then s.starts - {key} else s.starts)
  }

  // ---------------------------------------------------------------------
  // Segments of a stop
  // ---------------------------------------------------------------------

  function SetStop(s: Pool, j: StopId, phase: StopPhase): Pool
    requires j < |s.stopTasks|
  {
    s.(stopTasks := s.stopTasks[j := s.stopTasks[j].(phase := phase)])
  }

  function CallStop(s: Pool, key: Key): Pool {
    if key in s.stops then s
    else
      var managed := Holding(s, key);
      var pending := if key in s.starts then Some(s.starts[key]) else None;
      s.(generations := s.generations[key := Generation(s, key) + 1],
         starts := s.starts - {key},
         dashboards := s.dashboards - {key},
         stops := s.stops[key := |s.stopTasks|],
         stopTasks := s.stopTasks +
           [StopTask(key, managed, pending, if managed.Some? then StopManaged else StopDraining(false))])
  }

  function AnswerStop(s: Pool, j: StopId, result: Termination): Pool {
    if j >= |s.stopTasks| || s.stopTasks[j].phase != StopManaged || s.stopTasks[j].managed.None? then s
    else SetStop(Terminated(s, s.stopTasks[j].managed.value, result), j, StopDraining(result.Survived?))
  }

  /** The tail of the stop body: remember a failure with its exact handle, or forget an old one. */
  function Conclude(s: Pool, j: StopId, late: Option<Proc>, failed: bool): Pool
    requires j < |s.stopTasks|
  {
    var t := s.stopTasks[j];
    if !failed then SetStop(s, j, StopSettled(true)).(failures := s.failures - {t.key})
    else
      SetStop(s, j, StopSettled(false)).(
        failures := s.failures + {t.key},
        dashboards :=
          if t.key in s.dashboards then s.dashboards
          else if late.Some? then s.dashboards[t.key := late.value]
          else if t.managed.Some? then s.dashboards[t.key := t.managed.value]
          else s.dashboards)
  }

  /** The pending start settled or the drain timed out; both look the same to the stop. */
  function ElapseDrain(s: Pool, j: StopId): Pool {
    if j >= |s.stopTasks| || !s.stopTasks[j].phase.StopDraining? then s
    else
      var t := s.stopTasks[j];
      var late := Holding(s, t.key);
      if late.Some? && late != t.managed then
        SetStop(s, j, StopLate(late.value, t.phase.failed)).(dashboards := s.dashboards - {t.key})
      else Conclude(s, j, late, t.phase.failed)
  }

  /** The process a stop took out and could not terminate, if restoring the late one leaves no place for it. */
  function LetGo(s: Pool, t: StopTask): set<Proc> {
    if t.phase.StopLate? && t.phase.failed && t.managed.Some? && t.managed.value in s.live && Holding(s, t.key) != t.managed
    then {t.managed.value}
    else {}
  }

  function AnswerLate(s: Pool, j: StopId, result: Termination): Pool {
    if j >= |s.stopTasks| || !s.stopTasks[j].phase.StopLate? then s
    else
      var t := s.stopTasks[j];
      var u := Terminated(s, t.phase.late, result);
      Conclude(u, j, Some(t.phase.late), t.phase.failed || result.Survived?).(forgotten := u.forgotten + LetGo(u, t))
  }

  function WaitersFrom(tasks: seq<StartTask>, j: StopId, i: nat): seq<StartId>
    requires i <= |tasks|
    decreases |tasks| - i
  {
    if i == |tasks| then []
    else (if tasks[i].phase == AwaitStop(j) then [i] else []) + WaitersFrom(tasks, j, i + 1)
  }

  function WakeTask(t: StartTask, j: StopId, ok: bool): StartTask {
    if t.phase == AwaitStop(j) then t.(phase := Woken(ok)) else t
  }

  function ReleaseStop(s: Pool, j: StopId): Pool
    requires j < |s.stopTasks|
  {
    var key := s.stopTasks[j].key;
    SetStop(s, j, StopDone).(stops := if key in s.stops && s.stops[key] == j then s.stops - {key} else s.stops)
  }

  function Wake(s: Pool, j: StopId, ok: bool): Pool {
    s.(woken := s.woken + WaitersFrom(s.startTasks, j, 0),
       startTasks := seq(|s.startTasks|, i requires 0 <= i < |s.startTasks| => WakeTask(s.startTasks[i], j, ok)))
  }

  /** The stop promise settles: its caller releases the slot, then every waiting start continues. */
  function ReturnStop(s: Pool, j: StopId): Pool {
    if j >= |s.stopTasks| || !s.stopTasks[j].phase.StopSettled? then s
    else
      var ok := s.stopTasks[j].phase.ok;
      var s := Wake(ReleaseStop(s, j), j, ok);
      if s.shutdown.Draining? then
        s.(shutdown := Draining(s.shutdown.waiting - {j}, s.shutdown.failed || (j in s.shutdown.waiting && !ok)))
      else s
  }

  // ---------------------------------------------------------------------
  // Segments of a pool shutdown
  // ---------------------------------------------------------------------

  function Keys(s: Pool): set<Key> {
    s.dashboards.Keys + s.starts.Keys + s.stops.Keys
  }

  function CallStops(s: Pool, order: seq<Key>): Pool
    decreases |order|
  {
    if order == [] then s else CallStops(CallStop(s, order[0]), order[1..])
  }

  predicate Lists(order: seq<Key>, keys: set<Key>) {
    (forall k :: k in keys ==> k in order) && (forall k :: k in order ==> k in keys)
  }

  /** One round of the fixed-point loop; `order` is the iteration order of the key set. */
  function Pass(s: Pool, order: seq<Key>): Pool {
    if Keys(s) == {} then s.(shutdown := Ended(true))
    else
      var s := CallStops(s, order);
      s.(shutdown := Draining(set k | k in s.stops && k in order :: s.stops[k], false))
  }

  function CallShutdown(s: Pool, close: bool, order: seq<Key>): Pool {
    var s := if close then s.(poolClosed := true) else s;
    if !s.shutdown.NoShutdown? then s
    else if !Lists(order, Keys(s)) then s
    else Pass(s.(poolStopping := true), order)
  }

  function EndPass(s: Pool, order: seq<Key>): Pool {
    if !s.shutdown.Draining? || s.shutdown.waiting != {} then s
    else if s.shutdown.failed then s.(shutdown := Ended(false))
    else if !Lists(order, Keys(s)) then s
    else Pass(s, order)
  }

  function ReturnShutdown(s: Pool): Pool {
    if !s.shutdown.Ended? then s
    else s.(shutdown := NoShutdown, poolStopping := s.poolStopping && s.poolClosed)
  }

  function EmitExit(s: Pool, p: Proc): Pool {
    if p >= |s.procs| then s
    else
      var key := s.procs[p].key;
      if Holding(s, key) == Some(p) && key !in s.failures && p !in s.live then s.(dashboards := s.dashboards - {key})
      else s
  }

  /** A status poll looks at the entry unless a cleanup failed, and drops a dead one. */
  function PollStatus(s: Pool, key: Key): Pool {
    if key in s.failures then s else DropDead(s, key)
  }

  function Step(s: Pool, e: Event): Pool {
    match e
    case StartCalled(key, supported) => CallStart(s, key, supported)
    case StartResumed(supported) => ResumeStart(s, supported)
    case HealthAnswered(i, healthy) => AnswerHealth(s, i, healthy)
    case RecoveryAnswered(i, recovered) => AnswerRecovery(s, i, recovered)
    case PortAnswered(i, spawn) => AnswerPort(s, i, spawn)
    case ReadyAnswered(i, ready) => AnswerReady(s, i, ready)
    case CleanupAnswered(i, result) => AnswerCleanup(s, i, result)
    case StartReturned(i) => ReturnStart(s, i)
    case StopCalled(key) => CallStop(s, key)
    case StopTerminated(j, result) => AnswerStop(s, j, result)
    case StopDrainElapsed(j) => ElapseDrain(s, j)
    case StopLateTerminated(j, result) => AnswerLate(s, j, result)
    case StopReturned(j) => ReturnStop(s, j)
    case ShutdownCalled(close, order) => CallShutdown(s, close, order)
    case ShutdownPassEnded(order) => EndPass(s, order)
    case ShutdownReturned => ReturnShutdown(s)
    case ProcessDied(p) => s.(live := s.live - {p})
    case ExitEmitted(p) => EmitExit(s, p)
    case StatusPolled(key) => PollStatus(s, key)
  }

  /**
   * The starts that awaited one stop continue back to back, before anything
   * else runs: they are reactions on the same promise. A pass over the keys
   * visits every one of them.
   */
  predicate Enabled(s: Pool, e: Event) {
    && (s.woken == [] || e.StartResumed? || e.ProcessDied?)
    && (e.ShutdownCalled? || e.ShutdownPassEnded? ==> Lists(e.order, Keys(s)))
  }

  function Run(s: Pool, es: seq<Event>): Pool {
    if es == [] then s
    else
      var before := Run(s, es[..|es| - 1]);
      if Enabled(before, es[|es| - 1]) then Step(before, es[|es| - 1]) else before
  }

  // ---------------------------------------------------------------------
  // Invariant
  // ---------------------------------------------------------------------

  predicate PreSpawn(t: StartTask) {
    t.phase.AwaitHealth? || t.phase.AwaitRecovery? || t.phase.AwaitPort?
  }

  predicate Owns(procs: seq<Spawned>, key: Key, p: Proc) {
    p < |procs| && procs[p].key == key
  }

  predicate DashboardsOwned(dashboards: map<Key, Proc>, procs: seq<Spawned>) {
    forall k :: k in dashboards ==> Owns(procs, k, dashboards[k])
  }

  predicate SlotsIndexed(starts: map<Key, StartId>, tasks: seq<StartTask>) {
    forall k :: k in starts ==> starts[k] < |tasks| && tasks[starts[k]].key == k
  }

  predicate LiveSpawned(live: set<Proc>, procs: seq<Spawned>) {
    forall p :: p in live ==> p < |procs|
  }

  predicate StopsIndexed(stops: map<Key, StopId>, tasks: seq<StopTask>) {
    forall k :: k in stops ==> stops[k] < |tasks| && tasks[stops[k]].key == k
  }

  predicate StopsRegistered(stops: map<Key, StopId>, tasks: seq<StopTask>) {
    forall j :: 0 <= j < |tasks| && tasks[j].phase != StopDone ==> tasks[j].key in stops && stops[tasks[j].key] == j
  }

  predicate ManagedOwned(tasks: seq<StopTask>, procs: seq<Spawned>) {
    forall j :: 0 <= j < |tasks| && tasks[j].managed.Some? ==> Owns(procs, tasks[j].key, tasks[j].managed.value)
  }

  predicate ProcsOwned(tasks: seq<StartTask>, procs: seq<Spawned>) {
    forall i :: 0 <= i < |tasks| ==>
      && (tasks[i].phase.AwaitReady? ==> Owns(procs, tasks[i].key, tasks[i].phase.proc))
      && (tasks[i].phase.AwaitCleanup? ==> Owns(procs, tasks[i].key, tasks[i].phase.proc))
  }

  predicate WaitsIndexed(tasks: seq<StartTask>, stopTasks: seq<StopTask>) {
    forall i :: 0 <= i < |tasks| && tasks[i].phase.AwaitStop? ==>
      tasks[i].phase.stop < |stopTasks| && stopTasks[tasks[i].phase.stop].key == tasks[i].key
  }

  predicate GenerationsReached(tasks: seq<StartTask>, generations: map<Key, nat>) {
    forall i :: 0 <= i < |tasks| ==> tasks[i].generation <= GenerationIn(generations, tasks[i].key)
  }

  /** The starts about to continue all belong to one key that no stop is working on. */
  predicate WokenTogether(woken: seq<StartId>, tasks: seq<StartTask>, stops: map<Key, StopId>) {
    && (forall x :: 0 <= x < |woken| ==>
          && woken[x] < |tasks|
          && tasks[woken[x]].phase.Woken?
          && tasks[woken[x]].key !in stops)
    && (forall x, y :: 0 <= x < |woken| && 0 <= y < |woken| && woken[x] < |tasks| && woken[y] < |tasks| ==>
          tasks[woken[x]].key == tasks[woken[y]].key)
    && (forall x, y :: 0 <= x < y < |woken| ==> woken[x] < woken[y])
  }

  /** The owned processes whose root is alive. */
  function Tracked(s: Pool): set<Proc> {
    s.live - s.forgotten
  }

  predicate Working(t: StopTask) {
    t.phase.StopManaged? || t.phase.StopDraining? || t.phase.StopLate?
  }

  /** The stop has not terminated the process it took out, or failed to. */
  predicate Unfinished(phase: StopPhase) {
    phase.StopManaged? || phase == StopDraining(true) || (phase.StopLate? && phase.failed)
  }

  /** While a stop works on a key, a live process in the map is the one the stop took out. */
  predicate NoLateRoot(tasks: seq<StopTask>, dashboards: map<Key, Proc>, tracked: set<Proc>, procs: seq<Spawned>) {
    forall j :: 0 <= j < |tasks| ==>
      && (tasks[j].phase.StopLate? ==> tasks[j].phase.late !in tracked && Owns(procs, tasks[j].key, tasks[j].phase.late))
      && (Unfinished(tasks[j].phase) ==> tasks[j].managed.Some?)
      && (Working(tasks[j]) && tasks[j].key in dashboards && dashboards[tasks[j].key] in tracked ==>
            tasks[j].managed == Some(dashboards[tasks[j].key]))
  }

  predicate StopHolds(t: StopTask, p: Proc) {
    t.managed == Some(p) && Unfinished(t.phase)
  }

  predicate Held(k: Key, p: Proc, dashboards: map<Key, Proc>, stops: map<Key, StopId>, tasks: seq<StopTask>) {
    || (k in dashboards && dashboards[k] == p)
    || (k in stops && stops[k] < |tasks| && StopHolds(tasks[stops[k]], p))
  }

  /** No live process is ever forgotten. */
  predicate NoOrphan(live: set<Proc>, procs: seq<Spawned>, dashboards: map<Key, Proc>, stops: map<Key, StopId>, tasks: seq<StopTask>)
    requires LiveSpawned(live, procs)
  {
    forall p :: p in live ==> Held(procs[p].key, p, dashboards, stops, tasks)
  }

  predicate NoneLive(k: Key, live: set<Proc>, procs: seq<Spawned>)
    requires LiveSpawned(live, procs)
  {
    forall p :: p in live ==> procs[p].key != k
  }

  /** A start that may still spawn holds its slot and has the key to itself. */
  predicate SpawnersAlone(tasks: seq<StartTask>, starts: map<Key, StartId>, generations: map<Key, nat>,
                          stops: map<Key, StopId>, live: set<Proc>, procs: seq<Spawned>)
    requires LiveSpawned(live, procs)
  {
    forall i :: 0 <= i < |tasks| && PreSpawn(tasks[i]) && tasks[i].generation == GenerationIn(generations, tasks[i].key) ==>
      && tasks[i].key in starts && starts[tasks[i].key] == i
      && tasks[i].key !in stops
      && NoneLive(tasks[i].key, live, procs)
  }

  predicate Quiet(s: Pool) {
    s.live <= s.forgotten && s.starts == map[]
  }

  predicate ShutdownHolds(s: Pool) {
    && (!s.shutdown.NoShutdown? ==> s.poolStopping)
    && (s.shutdown == Ended(true) ==> Quiet(s))
  }

  predicate Indexed(s: Pool) {
    && DashboardsOwned(s.dashboards, s.procs)
    && SlotsIndexed(s.starts, s.startTasks)
    && LiveSpawned(s.live, s.procs)
    && StopsIndexed(s.stops, s.stopTasks)
    && StopsRegistered(s.stops, s.stopTasks)
    && ManagedOwned(s.stopTasks, s.procs)
    && ProcsOwned(s.startTasks, s.procs)
    && WaitsIndexed(s.startTasks, s.stopTasks)
    && GenerationsReached(s.startTasks, s.generations)
    && WokenTogether(s.woken, s.startTasks, s.stops)
  }

  predicate Inv(s: Pool) {
    && Indexed(s)
    && NoLateRoot(s.stopTasks, s.dashboards, Tracked(s), s.procs)
    && NoOrphan(Tracked(s), s.procs, s.dashboards, s.stops, s.stopTasks)
    && SpawnersAlone(s.startTasks, s.starts, s.generations, s.stops, Tracked(s), s.procs)
    && ShutdownHolds(s)
  }

  // ---------------------------------------------------------------------
  // Every step keeps the invariant
  // ---------------------------------------------------------------------

  /** A start that does not become a candidate to spawn changes phase. */
  lemma SetStartKeeps(s: Pool, i: StartId, phase: StartPhase)
    requires Inv(s) && i < |s.startTasks|
    requires !s.startTasks[i].phase.Woken? && !phase.Woken? && !phase.AwaitStop?
    requires phase.AwaitReady? ==> Owns(s.procs, s.startTasks[i].key, phase.proc)
    requires phase.AwaitCleanup? ==> Owns(s.procs, s.startTasks[i].key, phase.proc)
    requires PreSpawn(s.startTasks[i].(phase := phase)) ==> PreSpawn(s.startTasks[i])
    ensures Inv(SetStart(s, i, phase))
  {
  }

  lemma AnswerHealthKeeps(s: Pool, i: StartId, healthy: Probe)
    requires Inv(s)
    ensures Inv(AnswerHealth(s, i, healthy))
  {
    if InPhase(s, i, AwaitHealth) {
      if healthy == Threw || Superseded(s, i) {
        SetStartKeeps(s, i, StartSettled(false));
      } else {
        SetStartKeeps(s, i, if healthy == Yes then AwaitPort else AwaitRecovery);
      }
    }
  }

  lemma AnswerRecoveryKeeps(s: Pool, i: StartId, recovered: Probe)
    requires Inv(s)
    ensures Inv(AnswerRecovery(s, i, recovered))
  {
    if InPhase(s, i, AwaitRecovery) {
      SetStartKeeps(s, i, StartSettled(false));
      SetStartKeeps(s, i, AwaitPort);
    }
  }

  lemma AnswerReadyKeeps(s: Pool, i: StartId, ready: bool)
    requires Inv(s)
    ensures Inv(AnswerReady(s, i, ready))
  {
    if i < |s.startTasks| && s.startTasks[i].phase.AwaitReady? {
      SetStartKeeps(s, i, StartSettled(true));
      SetStartKeeps(s, i, AwaitCleanup(s.startTasks[i].phase.proc));
    }
  }

  lemma TerminatedKeeps(s: Pool, p: Proc, result: Termination)
    requires Inv(s)
    ensures Inv(Terminated(s, p, result))
  {
  }

  /** The map may forget a key whose process is not alive. */
  lemma ForgetKeeps(s: Pool, key: Key)
    requires Inv(s) && key in s.dashboards && s.dashboards[key] !in Tracked(s)
    ensures Inv(s.(dashboards := s.dashboards - {key}))
  {
  }

  /** The map may take back a process as long as no stop works on another one. */
  lemma PutBackKeeps(s: Pool, key: Key, p: Proc)
    requires Inv(s) && key !in s.dashboards && Owns(s.procs, key, p)
    requires p in Tracked(s) && key in s.stops && Working(s.stopTasks[s.stops[key]]) ==>
      s.stopTasks[s.stops[key]].managed == Some(p)
    ensures Inv(s.(dashboards := s.dashboards[key := p]))
  {
  }

  lemma FailuresKeep(s: Pool, failures: set<Key>)
    requires Inv(s)
    ensures Inv(s.(failures := failures))
  {
  }

  /** A live process that left the map is held by the stop that works on its key. */
  lemma OrphanHolder(s: Pool, p: Proc)
    requires Inv(s) && p in Tracked(s) && s.procs[p].key !in s.dashboards
    ensures s.procs[p].key in s.stops && s.stopTasks[s.stops[s.procs[p].key]].managed == Some(p)
  {
  }

  lemma RememberSurvivorKeeps(s: Pool, key: Key, p: Proc)
    requires Inv(s) && Owns(s.procs, key, p)
    ensures Inv(RememberSurvivor(s, key, p))
  {
    if key !in s.dashboards {
      if p in Tracked(s) {
        OrphanHolder(s, p);
      }
      PutBackKeeps(s, key, p);
      FailuresKeep(s.(dashboards := s.dashboards[key := p]), s.failures + {key});
    } else {
      FailuresKeep(s, s.failures + {key});
    }
  }

  lemma ForgetExitedKeeps(s: Pool, key: Key, p: Proc)
    requires Inv(s) && p !in Tracked(s)
    ensures Inv(ForgetExited(s, key, p))
  {
    if Holding(s, key) == Some(p) {
      ForgetKeeps(s, key);
      FailuresKeep(s.(dashboards := s.dashboards - {key}), s.failures - {key});
    } else {
      FailuresKeep(s, s.failures - {key});
    }
  }

  lemma AnswerCleanupKeeps(s: Pool, i: StartId, result: Termination)
    requires Inv(s)
    ensures Inv(AnswerCleanup(s, i, result))
  {
    hide DashboardsOwned, SlotsIndexed, StopsIndexed, StopsRegistered, ManagedOwned, WaitsIndexed,
      GenerationsReached, WokenTogether, NoLateRoot, NoOrphan, SpawnersAlone, LiveSpawned;
    if i < |s.startTasks| && s.startTasks[i].phase.AwaitCleanup? {
      var p := s.startTasks[i].phase.proc;
      var t := SetStart(Terminated(s, p, result), i, StartSettled(false));
      TerminatedKeeps(s, p, result);
      SetStartKeeps(Terminated(s, p, result), i, StartSettled(false));
      if result.Exited? {
        ForgetExitedKeeps(t, s.startTasks[i].key, p);
      } else {
        RememberSurvivorKeeps(t, s.startTasks[i].key, p);
      }
    }
  }

  /** A slot may be released once its start can no longer spawn. */
  lemma ReleaseSlotKeeps(s: Pool, key: Key)
    requires Inv(s)
    requires key in s.starts ==> !PreSpawn(s.startTasks[s.starts[key]]) || Superseded(s, s.starts[key])
    ensures Inv(s.(starts := s.starts - {key}))
  {
  }

  lemma ReturnStartKeeps(s: Pool, i: StartId)
    requires Inv(s)
    ensures Inv(ReturnStart(s, i))
  {
    if i < |s.startTasks| && s.startTasks[i].phase.StartSettled? {
      var done := StartDone(if s.startTasks[i].phase.running then Running else NotRunning);
      SetStartKeeps(s, i, done);
      if s.startTasks[i].key in s.starts && s.starts[s.startTasks[i].key] == i {
        ReleaseSlotKeeps(SetStart(s, i, done), s.startTasks[i].key);
      }
    }
  }

  /** Advancing a generation supersedes every earlier start of the key. */
  lemma AdvanceGenerationKeeps(s: Pool, key: Key)
    requires Inv(s)
    ensures Inv(s.(generations := s.generations[key := Generation(s, key) + 1]))
    ensures forall i :: 0 <= i < |s.startTasks| && s.startTasks[i].key == key ==>
      Superseded(s.(generations := s.generations[key := Generation(s, key) + 1]), i)
  {
  }

  /** The part of a stop call that supersedes the pending start and frees its slot. */
  function Supersede(s: Pool, key: Key): Pool {
    s.(generations := s.generations[key := Generation(s, key) + 1], starts := s.starts - {key})
  }

  lemma SupersedeKeeps(s: Pool, key: Key)
    requires Inv(s)
    ensures Inv(Supersede(s, key))
  {
    AdvanceGenerationKeeps(s, key);
    ReleaseSlotKeeps(s.(generations := s.generations[key := Generation(s, key) + 1]), key);
  }

  lemma OpenStopKeeps(s: Pool, key: Key, t: StopTask)
    requires Inv(s) && s.woken == [] && key !in s.stops && key !in s.starts
    requires t.key == key && t.managed == Holding(s, key)
    requires t.phase == if t.managed.Some? then StopManaged else StopDraining(false)
    ensures Inv(s.(dashboards := s.dashboards - {key}, stops := s.stops[key := |s.stopTasks|], stopTasks := s.stopTasks + [t]))
  {
  }

  lemma CallStopKeeps(s: Pool, key: Key)
    requires Inv(s) && s.woken == []
    ensures Inv(CallStop(s, key))
  {
    if key !in s.stops {
      SupersedeKeeps(s, key);
      var managed := Holding(s, key);
      var pending := if key in s.starts then Some(s.starts[key]) else None;
      OpenStopKeeps(Supersede(s, key), key,
        StopTask(key, managed, pending, if managed.Some? then StopManaged else StopDraining(false)));
    }
  }

  lemma SetStopKeeps(s: Pool, j: StopId, phase: StopPhase)
    requires Inv(s) && j < |s.stopTasks| && s.stopTasks[j].phase != StopDone
    requires phase != StopManaged && phase != StopDone
    requires Working(s.stopTasks[j])
    requires phase.StopLate? ==> phase.late !in Tracked(s) && Owns(s.procs, s.stopTasks[j].key, phase.late)
    requires Unfinished(phase) ==> s.stopTasks[j].managed.Some?
    requires Unfinished(s.stopTasks[j].phase) && !Unfinished(phase) && s.stopTasks[j].managed.value in Tracked(s) ==>
      Holding(s, s.stopTasks[j].key) == s.stopTasks[j].managed
    ensures Inv(SetStop(s, j, phase))
  {
  }

  lemma AnswerStopKeeps(s: Pool, j: StopId, result: Termination)
    requires Inv(s)
    ensures Inv(AnswerStop(s, j, result))
  {
    if j < |s.stopTasks| && s.stopTasks[j].phase == StopManaged && s.stopTasks[j].managed.Some? {
      TerminatedKeeps(s, s.stopTasks[j].managed.value, result);
      SetStopKeeps(Terminated(s, s.stopTasks[j].managed.value, result), j, StopDraining(result.Survived?));
    }
  }

  /** What a failed stop puts back. */
  function PutBack(s: Pool, t: StopTask, late: Option<Proc>, failed: bool): Pool {
    var back := if late.Some? then late else t.managed;
    if failed && t.key !in s.dashboards && back.Some? then s.(dashboards := s.dashboards[t.key := back.value]) else s
  }

  lemma ConcludeSteps(s: Pool, j: StopId, late: Option<Proc>, failed: bool)
    requires j < |s.stopTasks|
    ensures
      var t := s.stopTasks[j];
      && PutBack(s, t, late, failed).stopTasks == s.stopTasks
      && Conclude(s, j, late, failed)
        == SetStop(PutBack(s, t, late, failed), j, StopSettled(!failed)).(
             failures := if failed then s.failures + {t.key} else s.failures - {t.key})
  {
  }

  /** A stop that found no live root in its place may conclude, unless it leaves one behind. */
  lemma ConcludeKeeps(s: Pool, j: StopId, late: Option<Proc>, failed: bool)
    requires Inv(s) && j < |s.stopTasks| && Working(s.stopTasks[j])
    requires Unfinished(s.stopTasks[j].phase) ==> failed
    requires late.Some? ==> Owns(s.procs, s.stopTasks[j].key, late.value)
    requires late.Some? && late != s.stopTasks[j].managed ==> late.value !in Tracked(s)
    requires Unfinished(s.stopTasks[j].phase) && s.stopTasks[j].managed.value in Tracked(s) ==>
      || Holding(s, s.stopTasks[j].key) == s.stopTasks[j].managed
      || (Holding(s, s.stopTasks[j].key).None? && (late.None? || late == s.stopTasks[j].managed))
    ensures Inv(Conclude(s, j, late, failed))
  {
    hide DashboardsOwned, SlotsIndexed, StopsIndexed, ProcsOwned, WaitsIndexed, GenerationsReached, WokenTogether,
      NoOrphan, SpawnersAlone, LiveSpawned, Conclude;
    var t := s.stopTasks[j];
    var u := PutBack(s, t, late, failed);
    if u != s {
      PutBackKeeps(s, t.key, u.dashboards[t.key]);
    }
    SetStopKeeps(u, j, StopSettled(!failed));
    var failures := if failed then s.failures + {t.key} else s.failures - {t.key};
    FailuresKeep(SetStop(u, j, StopSettled(!failed)), failures);
    ConcludeSteps(s, j, late, failed);
  }

  lemma ElapseDrainKeeps(s: Pool, j: StopId)
    requires Inv(s)
    ensures Inv(ElapseDrain(s, j))
  {
    hide DashboardsOwned, SlotsIndexed, StopsIndexed, ProcsOwned, WaitsIndexed, GenerationsReached, WokenTogether,
      NoOrphan, SpawnersAlone, LiveSpawned;
    if j < |s.stopTasks| && s.stopTasks[j].phase.StopDraining? {
      var t := s.stopTasks[j];
      var late := Holding(s, t.key);
      if late.Some? {
        EntryOwned(s, t.key);
      }
      if late.Some? && late != t.managed {
        SetStopKeeps(s, j, StopLate(late.value, t.phase.failed));
        ForgetKeeps(SetStop(s, j, StopLate(late.value, t.phase.failed)), t.key);
      } else {
        ConcludeKeeps(s, j, late, t.phase.failed);
      }
    }
  }

  lemma EntryOwned(s: Pool, key: Key)
    requires Inv(s) && key in s.dashboards
    ensures Owns(s.procs, key, s.dashboards[key])
  {
  }

  /** Letting a process go takes it out of the invariant. */
  lemma LetGoKeeps(s: Pool, gone: set<Proc>)
    requires Inv(s)
    ensures Inv(s.(forgotten := s.forgotten + gone))
  {
  }

  lemma ConcludeLettingGo(u: Pool, j: StopId, late: Option<Proc>, failed: bool, forgotten: set<Proc>)
    requires j < |u.stopTasks|
    ensures Conclude(u.(forgotten := forgotten), j, late, failed) == Conclude(u, j, late, failed).(forgotten := forgotten)
  {
  }

  lemma AnswerLateKeeps(s: Pool, j: StopId, result: Termination)
    requires Inv(s)
    ensures Inv(AnswerLate(s, j, result))
  {
    hide DashboardsOwned, SlotsIndexed, StopsIndexed, ProcsOwned, WaitsIndexed, GenerationsReached, WokenTogether,
      NoOrphan, SpawnersAlone, LiveSpawned, Conclude;
    if j < |s.stopTasks| && s.stopTasks[j].phase.StopLate? {
      var t := s.stopTasks[j];
      var u := Terminated(s, t.phase.late, result);
      TerminatedKeeps(s, t.phase.late, result);
      var v := u.(forgotten := u.forgotten + LetGo(u, t));
      LetGoKeeps(u, LetGo(u, t));
      ConcludeKeeps(v, j, Some(t.phase.late), t.phase.failed || result.Survived?);
      ConcludeLettingGo(u, j, Some(t.phase.late), t.phase.failed || result.Survived?, v.forgotten);
    }
  }

  lemma NoneLiveWhenFree(s: Pool, key: Key)
    requires Inv(s) && key !in s.stops && (key in s.dashboards ==> s.dashboards[key] !in Tracked(s))
    ensures NoneLive(key, Tracked(s), s.procs)
  {
    forall p | p in Tracked(s) ensures s.procs[p].key != key {
      assert Held(s.procs[p].key, p, s.dashboards, s.stops, s.stopTasks);
    }
  }

  lemma DropDeadKeeps(s: Pool, key: Key)
    requires Inv(s)
    ensures Inv(DropDead(s, key))
  {
    if key in s.dashboards && !Manageable(s, s.dashboards[key]) {
      ForgetKeeps(s, key);
    }
  }

  lemma TakeSlotKeeps(s: Pool, i: StartId, phase: StartPhase)
    requires Inv(s) && i < |s.startTasks| && s.startTasks[i].phase.StartDone?
    requires s.shutdown != Ended(true)
    requires phase.AwaitHealth? || phase.StartSettled?
    requires s.startTasks[i].key !in s.starts && s.startTasks[i].key !in s.stops
    requires NoneLive(s.startTasks[i].key, Tracked(s), s.procs)
    ensures var key := s.startTasks[i].key;
      Inv(s.(starts := s.starts[key := i], startTasks := s.startTasks[i := StartTask(key, Generation(s, key), phase)]))
  {
  }

  lemma AdmitKeeps(s: Pool, i: StartId, supported: bool)
    requires Inv(s) && i < |s.startTasks| && s.startTasks[i].phase.StartDone?
    requires s.startTasks[i].key !in s.stops
    ensures Inv(Admit(s, i, supported))
  {
    hide DashboardsOwned, SlotsIndexed, StopsIndexed, StopsRegistered, ManagedOwned, ProcsOwned, WaitsIndexed,
      GenerationsReached, WokenTogether, NoLateRoot, NoOrphan, SpawnersAlone, LiveSpawned;
    var key := s.startTasks[i].key;
    SetStartKeeps(s, i, StartDone(NotRunning));
    SetStartKeeps(s, i, StartDone(if key in s.starts then Joined(s.starts[key]) else NotRunning));
    if !(s.poolClosed || s.poolStopping || key in s.starts || key in s.failures) {
      DropDeadKeeps(s, key);
      var t := DropDead(s, key);
      SetStartKeeps(t, i, StartDone(Running));
      if key !in t.dashboards {
        NoneLiveWhenFree(t, key);
        TakeSlotKeeps(t, i, if supported then AwaitHealth else StartSettled(false));
      }
    }
  }

  lemma SpawnIndexed(s: Pool, i: StartId, alive: bool)
    requires Inv(s) && InPhase(s, i, AwaitPort) && !Superseded(s, i)
    ensures Indexed(Spawn(s, i, alive))
  {
    hide NoLateRoot, NoOrphan, SpawnersAlone, ShutdownHolds, StopsIndexed, StopsRegistered;
    var t := Spawn(s, i, alive);
    assert forall k: Key, p: Proc :: Owns(s.procs, k, p) ==> Owns(t.procs, k, p);
    assert Owns(t.procs, s.startTasks[i].key, |s.procs|);
  }

  lemma SpawnedApart(s: Pool, i: StartId, alive: bool)
    requires Inv(s) && InPhase(s, i, AwaitPort) && !Superseded(s, i)
    ensures LiveSpawned(Spawn(s, i, alive).live, Spawn(s, i, alive).procs)
    ensures
      var t := Spawn(s, i, alive);
      SpawnersAlone(t.startTasks, t.starts, t.generations, t.stops, Tracked(t), t.procs)
  {
    hide DashboardsOwned, StopsIndexed, StopsRegistered, ManagedOwned, ProcsOwned, WaitsIndexed, GenerationsReached;
    hide WokenTogether, NoLateRoot, NoOrphan, ShutdownHolds;
    var key := s.startTasks[i].key;
    assert PreSpawn(s.startTasks[i]);
    assert key in s.starts && s.starts[key] == i;
  }

  lemma SpawnedHeld(s: Pool, i: StartId, alive: bool)
    requires Inv(s) && InPhase(s, i, AwaitPort) && !Superseded(s, i)
    requires LiveSpawned(Spawn(s, i, alive).live, Spawn(s, i, alive).procs)
    ensures
      var t := Spawn(s, i, alive);
      NoOrphan(Tracked(t), t.procs, t.dashboards, t.stops, t.stopTasks) && ShutdownHolds(t)
  {
    hide DashboardsOwned, SlotsIndexed, StopsIndexed, ManagedOwned, ProcsOwned, WaitsIndexed, GenerationsReached;
    hide WokenTogether;
    var key := s.startTasks[i].key;
    var t := Spawn(s, i, alive);
    assert PreSpawn(s.startTasks[i]);
    assert key in s.starts && s.starts[key] == i && key !in s.stops && NoneLive(key, Tracked(s), s.procs);
    forall p | p in Tracked(t)
      ensures Held(t.procs[p].key, p, t.dashboards, t.stops, t.stopTasks)
    {
      if p < |s.procs| {
        assert t.procs[p] == s.procs[p];
        assert s.procs[p].key != key;
      }
    }
  }

  lemma SpawnedNotLate(s: Pool, i: StartId, alive: bool)
    requires Inv(s) && InPhase(s, i, AwaitPort) && !Superseded(s, i)
    ensures
      var t := Spawn(s, i, alive);
      NoLateRoot(t.stopTasks, t.dashboards, Tracked(t), t.procs)
  {
    hide SlotsIndexed, StopsIndexed, ManagedOwned, ProcsOwned, WaitsIndexed, GenerationsReached;
    hide WokenTogether, NoOrphan;
    var key := s.startTasks[i].key;
    var t := Spawn(s, i, alive);
    assert PreSpawn(s.startTasks[i]);
    assert key !in s.stops;
    forall j | 0 <= j < |t.stopTasks|
      ensures Working(t.stopTasks[j]) ==> t.stopTasks[j].key != key
      ensures t.stopTasks[j].phase.StopLate? ==> t.stopTasks[j].phase.late < |s.procs|
    {
      assert t.stopTasks[j] == s.stopTasks[j];
    }
  }

  lemma SpawnKeeps(s: Pool, i: StartId, alive: bool)
    requires Inv(s) && InPhase(s, i, AwaitPort) && !Superseded(s, i)
    ensures Inv(Spawn(s, i, alive))
  {
    hide Indexed, NoLateRoot, NoOrphan, SpawnersAlone, ShutdownHolds, Spawn, LiveSpawned;
    SpawnIndexed(s, i, alive);
    SpawnedApart(s, i, alive);
    SpawnedHeld(s, i, alive);
    SpawnedNotLate(s, i, alive);
  }

  /** A new start task, or a woken one taken from the queue, before its continuation runs. */
  lemma AddTaskKeeps(s: Pool, t: StartTask)
    requires Inv(s) && (t.phase.StartDone? || t.phase.AwaitStop?) && t.generation == 0
    requires t.phase.AwaitStop? ==> t.phase.stop < |s.stopTasks| && s.stopTasks[t.phase.stop].key == t.key
    ensures Inv(s.(startTasks := s.startTasks + [t]))
  {
    var tasks := s.startTasks + [t];
    forall i | 0 <= i < |tasks| ensures i < |s.startTasks| ==> tasks[i] == s.startTasks[i] {
    }
  }

  lemma CallStartKeeps(s: Pool, key: Key, supported: bool)
    requires Inv(s)
    ensures Inv(CallStart(s, key, supported))
  {
    AddTaskKeeps(s, StartTask(key, 0, StartDone(NotRunning)));
    if !(s.poolClosed || s.poolStopping) {
      if key in s.stops {
        AddTaskKeeps(s, StartTask(key, 0, AwaitStop(s.stops[key])));
      } else {
        var i := |s.startTasks|;
        var done := s.(startTasks := s.startTasks + [StartTask(key, 0, StartDone(NotRunning))]);
        AdmitKeeps(done, i, supported);
        AdmitIgnoresPhase(s.(startTasks := s.startTasks + [StartTask(key, 0, Admitting)]), done, i, supported);
      }
    }
  }

  /** Admission looks only at the key of the task it admits. */
  lemma Overwritten(tasks: seq<StartTask>, i: nat, p: StartPhase, q: StartPhase, x: StartTask)
    requires i < |tasks|
    ensures
      var changed := tasks[i := tasks[i].(phase := p)];
      && changed[i := x] == tasks[i := x]
      && changed[i := changed[i].(phase := q)] == tasks[i := tasks[i].(phase := q)]
      && changed[i].key == tasks[i].key
  {
  }

  lemma DropDeadAside(s: Pool, i: StartId, key: Key)
    requires i < |s.startTasks|
    ensures DropDead(SetStart(s, i, StartDone(NotRunning)), key) == SetStart(DropDead(s, key), i, StartDone(NotRunning))
    ensures DropDead(s, key).startTasks == s.startTasks && DropDead(s, key).generations == s.generations
  {
  }

  lemma AdmitIgnoresPhase(s: Pool, t: Pool, i: StartId, supported: bool)
    requires i < |s.startTasks| && t == SetStart(s, i, StartDone(NotRunning))
    ensures Admit(s, i, supported) == Admit(t, i, supported)
  {
    hide DropDead, GenerationIn;
    var key := s.startTasks[i].key;
    var x := StartTask(key, Generation(s, key), if supported then AwaitHealth else StartSettled(false));
    var answer := if key in s.starts && !s.poolClosed && !s.poolStopping then Joined(s.starts[key]) else NotRunning;
    Overwritten(s.startTasks, i, StartDone(NotRunning), StartDone(answer), x);
    Overwritten(s.startTasks, i, StartDone(NotRunning), StartDone(Running), x);
    DropDeadAside(s, i, key);
  }

  lemma PopWokenKeeps(s: Pool)
    requires Inv(s) && s.woken != []
    ensures Inv(SetStart(s.(woken := s.woken[1..]), s.woken[0], StartDone(NotRunning)))
  {
  }

  lemma ResumeStartKeeps(s: Pool, supported: bool)
    requires Inv(s)
    ensures Inv(ResumeStart(s, supported))
  {
    if s.woken != [] {
      var i := s.woken[0];
      PopWokenKeeps(s);
      var popped := s.(woken := s.woken[1..]);
      var done := SetStart(popped, i, StartDone(NotRunning));
      if s.startTasks[i].phase == Woken(true) {
        AdmitKeeps(done, i, supported);
        AdmitIgnoresPhase(popped, done, i, supported);
      }
    }
  }

  /** An increasing list of the starts, from i on, that wait for stop j. */
  predicate WaitList(w: seq<StartId>, tasks: seq<StartTask>, j: StopId, i: nat) {
    && (forall x :: 0 <= x < |w| ==> i <= w[x] < |tasks| && tasks[w[x]].phase == AwaitStop(j))
    && (forall x, y :: 0 <= x < y < |w| ==> w[x] < w[y])
  }

  lemma WaitListCons(rest: seq<StartId>, tasks: seq<StartTask>, j: StopId, i: nat)
    requires i < |tasks| && tasks[i].phase == AwaitStop(j) && WaitList(rest, tasks, j, i + 1)
    ensures WaitList([i] + rest, tasks, j, i)
  {
    var w := [i] + rest;
    assert forall x :: 0 < x < |w| ==> w[x] == rest[x - 1];
  }

  lemma WaitListLater(rest: seq<StartId>, tasks: seq<StartTask>, j: StopId, i: nat)
    requires WaitList(rest, tasks, j, i + 1)
    ensures WaitList(rest, tasks, j, i)
  {
  }

  lemma {:induction false} WaitersAreWaiting(tasks: seq<StartTask>, j: StopId, i: nat)
    requires i <= |tasks|
    ensures WaitList(WaitersFrom(tasks, j, i), tasks, j, i)
    decreases |tasks| - i
  {
    if i < |tasks| {
      hide WaitList;
      WaitersAreWaiting(tasks, j, i + 1);
      var rest := WaitersFrom(tasks, j, i + 1);
      if tasks[i].phase == AwaitStop(j) {
        WaitListCons(rest, tasks, j, i);
      } else {
        WaitListLater(rest, tasks, j, i);
        assert [] + rest == rest;
      }
    }
  }

  lemma ReleaseStopIndexed(s: Pool, j: StopId)
    requires Inv(s) && j < |s.stopTasks| && s.stopTasks[j].phase.StopSettled?
    ensures Indexed(ReleaseStop(s, j)) && s.stopTasks[j].key !in ReleaseStop(s, j).stops
  {
    hide DashboardsOwned, SlotsIndexed, LiveSpawned, ProcsOwned, GenerationsReached, NoLateRoot, NoOrphan,
      SpawnersAlone, ShutdownHolds;
  }

  lemma ReleaseStopKeeps(s: Pool, j: StopId)
    requires Inv(s) && j < |s.stopTasks| && s.stopTasks[j].phase.StopSettled?
    ensures Inv(ReleaseStop(s, j))
    ensures s.stopTasks[j].key !in ReleaseStop(s, j).stops
  {
    hide DashboardsOwned, SlotsIndexed, LiveSpawned, ProcsOwned, GenerationsReached, ManagedOwned, WaitsIndexed,
      WokenTogether;
    ReleaseStopIndexed(s, j);
  }

  lemma WakeListTogether(w: seq<StartId>, s: Pool, tasks: seq<StartTask>, j: StopId, ok: bool)
    requires WaitsIndexed(s.startTasks, s.stopTasks) && WaitList(w, s.startTasks, j, 0)
    requires j < |s.stopTasks| && s.stopTasks[j].key !in s.stops
    requires |tasks| == |s.startTasks|
    requires forall i :: 0 <= i < |tasks| ==> tasks[i] == WakeTask(s.startTasks[i], j, ok)
    ensures WokenTogether(w, tasks, s.stops)
  {
    forall x | 0 <= x < |w|
      ensures tasks[w[x]].phase.Woken? && tasks[w[x]].key == s.stopTasks[j].key
    {
      assert s.startTasks[w[x]].phase == AwaitStop(j);
    }
  }

  lemma WakeAllTogether(s: Pool, j: StopId, ok: bool)
    requires WaitsIndexed(s.startTasks, s.stopTasks)
    requires s.woken == [] && j < |s.stopTasks| && s.stopTasks[j].key !in s.stops
    ensures WokenTogether(Wake(s, j, ok).woken, Wake(s, j, ok).startTasks, s.stops)
  {
    WaitersAreWaiting(s.startTasks, j, 0);
    assert Wake(s, j, ok).woken == WaitersFrom(s.startTasks, j, 0);
    WakeListTogether(WaitersFrom(s.startTasks, j, 0), s, Wake(s, j, ok).startTasks, j, ok);
  }

  lemma TrackedSpawned(s: Pool)
    requires LiveSpawned(s.live, s.procs)
    ensures LiveSpawned(Tracked(s), s.procs)
  {
  }

  lemma WokenAlone(s: Pool, j: StopId, ok: bool)
    requires LiveSpawned(Tracked(s), s.procs)
    requires SpawnersAlone(s.startTasks, s.starts, s.generations, s.stops, Tracked(s), s.procs)
    ensures SpawnersAlone(Wake(s, j, ok).startTasks, s.starts, s.generations, s.stops, Tracked(s), s.procs)
  {
    hide WaitersFrom, LiveSpawned, NoneLive;
    var tasks := Wake(s, j, ok).startTasks;
    assert forall i :: 0 <= i < |tasks| ==> tasks[i] == WakeTask(s.startTasks[i], j, ok);
  }

  lemma WakeAllKeeps(s: Pool, j: StopId, ok: bool)
    requires Inv(s) && s.woken == [] && j < |s.stopTasks| && s.stopTasks[j].key !in s.stops
    ensures Inv(Wake(s, j, ok))
  {
    hide DashboardsOwned, StopsIndexed, StopsRegistered, ManagedOwned, NoLateRoot, NoOrphan, LiveSpawned,
      WokenTogether, SpawnersAlone, WaitersFrom;
    TrackedSpawned(s);
    WakeAllTogether(s, j, ok);
    WokenAlone(s, j, ok);
  }

  lemma ShutdownWaitKeeps(s: Pool, waiting: set<StopId>, failed: bool)
    requires Inv(s) && s.poolStopping
    ensures Inv(s.(shutdown := Draining(waiting, failed)))
  {
  }

  lemma ReturnStopKeeps(s: Pool, j: StopId)
    requires Inv(s) && s.woken == []
    ensures Inv(ReturnStop(s, j))
  {
    if j < |s.stopTasks| && s.stopTasks[j].phase.StopSettled? {
      var ok := s.stopTasks[j].phase.ok;
      ReleaseStopKeeps(s, j);
      var t := ReleaseStop(s, j);
      WakeAllKeeps(t, j, ok);
      var u := Wake(t, j, ok);
      assert s.woken + WaitersFrom(s.startTasks, j, 0) == WaitersFrom(s.startTasks, j, 0);
      if s.shutdown.Draining? {
        ShutdownWaitKeeps(u, s.shutdown.waiting - {j}, s.shutdown.failed || (j in s.shutdown.waiting && !ok));
      }
    }
  }

  lemma EmitExitKeeps(s: Pool, p: Proc)
    requires Inv(s)
    ensures Inv(EmitExit(s, p))
  {
    if p < |s.procs| && Holding(s, s.procs[p].key) == Some(p) && p !in s.live {
      ForgetKeeps(s, s.procs[p].key);
    }
  }

  lemma {:induction false} CallStopsKeep(s: Pool, order: seq<Key>)
    requires Inv(s) && s.woken == []
    ensures Inv(CallStops(s, order))
    ensures CallStops(s, order).woken == [] && CallStops(s, order).poolStopping == s.poolStopping
    ensures CallStops(s, order).poolClosed == s.poolClosed
    decreases |order|
  {
    if order != [] {
      CallStopKeeps(s, order[0]);
      CallStopsKeep(CallStop(s, order[0]), order[1..]);
    }
  }

  lemma LiveIsHeld(s: Pool)
    requires Inv(s)
    ensures forall p :: p in Tracked(s) ==> p < |s.procs| && s.procs[p].key in Keys(s)
  {
    forall p | p in Tracked(s)
      ensures p < |s.procs| && s.procs[p].key in Keys(s)
    {
      assert Held(s.procs[p].key, p, s.dashboards, s.stops, s.stopTasks);
    }
  }

  /** When no map holds a key, no owned process is alive. */
  lemma NoKeysNothingLive(s: Pool)
    requires Inv(s) && Keys(s) == {}
    ensures Quiet(s) && s.dashboards == map[] && s.stops == map[]
  {
    LiveIsHeld(s);
    assert forall p :: p in s.live && p !in s.forgotten ==> p in Tracked(s);
    assert s.dashboards.Keys == {} && s.starts.Keys == {} && s.stops.Keys == {};
    assert s.dashboards == map[] && s.starts == map[] && s.stops == map[];
  }

  lemma PassKeeps(s: Pool, order: seq<Key>)
    requires Inv(s) && s.woken == [] && s.poolStopping
    ensures Inv(Pass(s, order))
  {
    if Keys(s) == {} {
      NoKeysNothingLive(s);
    } else {
      CallStopsKeep(s, order);
      var t := CallStops(s, order);
      ShutdownWaitKeeps(t, set k | k in t.stops && k in order :: t.stops[k], false);
    }
  }

  lemma DeathKeeps(s: Pool, p: Proc)
    requires Inv(s)
    ensures Inv(s.(live := s.live - {p}))
  {
  }

  lemma CallShutdownKeeps(s: Pool, close: bool, order: seq<Key>)
    requires Inv(s) && s.woken == []
    ensures Inv(CallShutdown(s, close, order))
  {
    var t := if close then s.(poolClosed := true) else s;
    if t.shutdown.NoShutdown? && Lists(order, Keys(t)) {
      PassKeeps(t.(poolStopping := true), order);
    }
  }

  lemma EndPassKeeps(s: Pool, order: seq<Key>)
    requires Inv(s) && s.woken == []
    ensures Inv(EndPass(s, order))
  {
    if s.shutdown.Draining? && s.shutdown.waiting == {} && !s.shutdown.failed && Lists(order, Keys(s)) {
      PassKeeps(s, order);
    }
  }

  lemma AnswerPortKeeps(s: Pool, i: StartId, spawn: SpawnResult)
    requires Inv(s)
    ensures Inv(AnswerPort(s, i, spawn))
  {
    if InPhase(s, i, AwaitPort) {
      SetStartKeeps(s, i, StartSettled(false));
      if !Superseded(s, i) {
        SpawnKeeps(s, i, spawn == SpawnedLive);
      }
    }
  }

  lemma StartStepKeeps(s: Pool, e: Event)
    requires Inv(s) && Enabled(s, e)
    requires e.StartCalled? || e.StartResumed? || e.HealthAnswered? || e.RecoveryAnswered? || e.PortAnswered?
             || e.ReadyAnswered? || e.CleanupAnswered? || e.StartReturned?
    ensures Inv(Step(s, e))
  {
    match e
    case StartCalled(key, supported) => CallStartKeeps(s, key, supported);
    case StartResumed(supported) => ResumeStartKeeps(s, supported);
    case HealthAnswered(i, healthy) => AnswerHealthKeeps(s, i, healthy);
    case RecoveryAnswered(i, recovered) => AnswerRecoveryKeeps(s, i, recovered);
    case PortAnswered(i, spawn) => AnswerPortKeeps(s, i, spawn);
    case ReadyAnswered(i, ready) => AnswerReadyKeeps(s, i, ready);
    case CleanupAnswered(i, result) => AnswerCleanupKeeps(s, i, result);
    case StartReturned(i) => ReturnStartKeeps(s, i);
  }

  lemma ReturnShutdownKeeps(s: Pool)
    requires Inv(s)
    ensures Inv(ReturnShutdown(s))
  {
    hide DashboardsOwned, SlotsIndexed, StopsIndexed, StopsRegistered, ManagedOwned, ProcsOwned, WaitsIndexed,
      GenerationsReached, WokenTogether, NoLateRoot, NoOrphan, SpawnersAlone, LiveSpawned;
  }

  lemma StepKeeps(s: Pool, e: Event)
    requires Inv(s) && Enabled(s, e)
    ensures Inv(Step(s, e))
  {
    hide Inv, CallStart, ResumeStart, AnswerHealth, AnswerRecovery, AnswerPort, AnswerReady, AnswerCleanup, ReturnStart,
      CallStop, AnswerStop, ElapseDrain, AnswerLate, ReturnStop, CallShutdown, EndPass, EmitExit, ReturnShutdown,
      DropDead;
    match e
    case StopCalled(key) => CallStopKeeps(s, key);
    case StopTerminated(j, result) => AnswerStopKeeps(s, j, result);
    case StopDrainElapsed(j) => ElapseDrainKeeps(s, j);
    case StopLateTerminated(j, result) => AnswerLateKeeps(s, j, result);
    case StopReturned(j) => ReturnStopKeeps(s, j);
    case ShutdownCalled(close, order) => CallShutdownKeeps(s, close, order);
    case ShutdownPassEnded(order) => EndPassKeeps(s, order);
    case ShutdownReturned => ReturnShutdownKeeps(s);
    case ProcessDied(p) => DeathKeeps(s, p);
    case ExitEmitted(p) => EmitExitKeeps(s, p);
    case StatusPolled(key) => DropDeadKeeps(s, key);
    case _ => StartStepKeeps(s, e);
  }

  lemma {:induction false} RunKeeps(es: seq<Event>)
    ensures Inv(Run(Initial, es))
  {
    if es != [] {
      RunKeeps(es[..|es| - 1]);
      var s := Run(Initial, es[..|es| - 1]);
      if Enabled(s, es[|es| - 1]) {
        StepKeeps(s, es[|es| - 1]);
      }
    }
  }

  // ---------------------------------------------------------------------
  // Main results
  // ---------------------------------------------------------------------

  /** The processes this step spawns. */
  function NewProcs(s: Pool, e: Event): seq<Spawned> {
    if Enabled(s, e) && |s.procs| <= |Step(s, e).procs| then Step(s, e).procs[|s.procs|..] else []
  }

  lemma {:induction false} CallStopsSpawnsNothing(s: Pool, order: seq<Key>)
    ensures CallStops(s, order).procs == s.procs
    ensures CallStops(s, order).live == s.live && CallStops(s, order).forgotten == s.forgotten
    decreases |order|
  {
    if order != [] {
      CallStopsSpawnsNothing(CallStop(s, order[0]), order[1..]);
    }
  }

  lemma PassSpawnsNothing(s: Pool, order: seq<Key>)
    ensures Pass(s, order).procs == s.procs && Pass(s, order).forgotten == s.forgotten
  {
    CallStopsSpawnsNothing(s, order);
  }

  /** Nothing is spawned or forgotten, and the state of the shutdown stays. */
  predicate Frame(s: Pool, t: Pool) {
    t.procs == s.procs && t.shutdown == s.shutdown && t.forgotten == s.forgotten
  }

  lemma AdmitFrame(s: Pool, i: StartId, supported: bool)
    requires i < |s.startTasks|
    ensures Frame(s, Admit(s, i, supported))
  {
  }

  lemma CallStartFrame(s: Pool, key: Key, supported: bool)
    ensures Frame(s, CallStart(s, key, supported))
  {
    AdmitFrame(s.(startTasks := s.startTasks + [StartTask(key, 0, Admitting)]), |s.startTasks|, supported);
  }

  lemma ResumeStartFrame(s: Pool, supported: bool)
    ensures Frame(s, ResumeStart(s, supported))
  {
    if s.woken != [] && s.woken[0] < |s.startTasks| {
      AdmitFrame(s.(woken := s.woken[1..]), s.woken[0], supported);
    }
  }

  lemma AnswersFrame(s: Pool, i: StartId, probe: Probe, ready: bool)
    ensures Frame(s, AnswerHealth(s, i, probe))
    ensures Frame(s, AnswerRecovery(s, i, probe))
    ensures Frame(s, AnswerReady(s, i, ready))
    ensures Frame(s, ReturnStart(s, i))
  {
    hide SetStart, Superseded, Generation;
    forall phase | i < |s.startTasks|
      ensures Frame(s, SetStart(s, i, phase))
    {
      SetStartFrame(s, i, phase);
    }
  }

  lemma SetStartFrame(s: Pool, i: StartId, phase: StartPhase)
    requires i < |s.startTasks|
    ensures Frame(s, SetStart(s, i, phase))
  {
  }

  lemma CleanupFrame(s: Pool, i: StartId, result: Termination)
    ensures Frame(s, AnswerCleanup(s, i, result))
  {
  }

  lemma StopFrame(s: Pool, j: StopId, key: Key, result: Termination)
    ensures Frame(s, CallStop(s, key))
    ensures Frame(s, AnswerStop(s, j, result))
  {
  }

  lemma WakeFrame(s: Pool, j: StopId, ok: bool)
    ensures Frame(s, Wake(s, j, ok)) && Wake(s, j, ok).live == s.live
  {
    hide WaitersFrom, WakeTask;
  }

  lemma ReturnStopFrame(s: Pool, j: StopId)
    ensures ReturnStop(s, j).procs == s.procs && ReturnStop(s, j).forgotten == s.forgotten
    ensures ReturnStop(s, j).shutdown == Ended(true) ==> s.shutdown == Ended(true)
  {
    hide Wake;
    if j < |s.stopTasks| && s.stopTasks[j].phase.StopSettled? {
      WakeFrame(ReleaseStop(s, j), j, s.stopTasks[j].phase.ok);
    }
  }

  lemma DrainFrame(s: Pool, j: StopId, result: Termination)
    ensures Frame(s, ElapseDrain(s, j))
    ensures Frame(s, AnswerLate(s, j, result).(forgotten := s.forgotten))
    ensures !(j < |s.stopTasks| && s.stopTasks[j].phase.StopLate?) ==> AnswerLate(s, j, result) == s
  {
    hide Conclude, Terminated;
    if j < |s.stopTasks| {
      var t := s.stopTasks[j];
      if t.phase.StopDraining? {
        ConcludeFrame(s, j, Holding(s, t.key), t.phase.failed);
      }
      if t.phase.StopLate? {
        var u := Terminated(s, t.phase.late, result);
        TerminatedFrame(s, t.phase.late, result);
        ConcludeFrame(u, j, Some(t.phase.late), t.phase.failed || result.Survived?);
      }
    }
  }

  lemma TerminatedFrame(s: Pool, p: Proc, result: Termination)
    ensures Frame(s, Terminated(s, p, result)) && Terminated(s, p, result).stopTasks == s.stopTasks
  {
  }

  lemma ConcludeFrame(s: Pool, j: StopId, late: Option<Proc>, failed: bool)
    requires j < |s.stopTasks|
    ensures Frame(s, Conclude(s, j, late, failed))
  {
  }

  lemma StartEventFrame(s: Pool, e: Event)
    requires e.StartCalled? || e.StartResumed? || e.HealthAnswered? || e.RecoveryAnswered?
             || e.ReadyAnswered? || e.CleanupAnswered? || e.StartReturned?
    ensures Frame(s, Step(s, e))
  {
    match e
    case StartCalled(key, supported) => CallStartFrame(s, key, supported);
    case StartResumed(supported) => ResumeStartFrame(s, supported);
    case HealthAnswered(i, healthy) => AnswersFrame(s, i, healthy, true);
    case RecoveryAnswered(i, recovered) => AnswersFrame(s, i, recovered, true);
    case ReadyAnswered(i, ready) => AnswersFrame(s, i, Yes, ready);
    case StartReturned(i) => AnswersFrame(s, i, Yes, true);
    case CleanupAnswered(i, result) => CleanupFrame(s, i, result);
  }

  lemma StopEventFrame(s: Pool, e: Event)
    requires e.StopCalled? || e.StopTerminated? || e.StopDrainElapsed? || e.ProcessDied? || e.ExitEmitted?
             || e.StatusPolled?
    ensures Frame(s, Step(s, e))
  {
    match e
    case StopCalled(key) => StopFrame(s, 0, key, Exited);
    case StopTerminated(j, result) => StopFrame(s, j, "", result);
    case StopDrainElapsed(j) => DrainFrame(s, j, Exited);
    case ProcessDied(_) =>
    case ExitEmitted(_) =>
    case StatusPolled(_) =>
  }

  lemma PortEffects(s: Pool, i: StartId, spawn: SpawnResult)
    ensures Frame(s, AnswerPort(s, i, spawn).(procs := s.procs))
    ensures AnswerPort(s, i, spawn).procs != s.procs ==>
      InPhase(s, i, AwaitPort) && !Superseded(s, i)
        && AnswerPort(s, i, spawn).procs == s.procs + [Spawned(s.startTasks[i].key, i)]
  {
    hide Superseded, Spawn, SetStart;
    if InPhase(s, i, AwaitPort) {
      SetStartFrame(s, i, StartSettled(false));
      SpawnFrame(s, i, spawn == SpawnedLive);
    }
  }

  lemma SpawnFrame(s: Pool, i: StartId, alive: bool)
    requires i < |s.startTasks|
    ensures Frame(s, Spawn(s, i, alive).(procs := s.procs))
    ensures Spawn(s, i, alive).procs == s.procs + [Spawned(s.startTasks[i].key, i)]
  {
  }

  /**
   * Only the port answer spawns, only a pass of the shutdown loop can resolve it,
   * and only a stop that concludes with a late process forgets another one.
   */
  lemma StepEffects(s: Pool, e: Event)
    ensures Step(s, e).procs != s.procs ==>
      e.PortAnswered? && InPhase(s, e.start, AwaitPort) && !Superseded(s, e.start)
        && Step(s, e).procs == s.procs + [Spawned(s.startTasks[e.start].key, e.start)]
    ensures Step(s, e).shutdown == Ended(true) && s.shutdown != Ended(true) ==> e.ShutdownCalled? || e.ShutdownPassEnded?
    ensures Step(s, e).forgotten != s.forgotten ==>
      e.StopLateTerminated? && e.stop < |s.stopTasks| && s.stopTasks[e.stop].phase.StopLate?
  {
    hide CallStart, ResumeStart, AnswerHealth, AnswerRecovery, AnswerReady, AnswerCleanup, ReturnStart, CallStop,
      AnswerStop, ElapseDrain, AnswerLate, ReturnStop, EmitExit, AnswerPort, CallStops;
    match e
    case PortAnswered(i, spawn) => PortEffects(s, i, spawn);
    case StopReturned(j) => ReturnStopFrame(s, j);
    case StopLateTerminated(j, result) => DrainFrame(s, j, result);
    case ShutdownCalled(close, order) =>
      PassSpawnsNothing((if close then s.(poolClosed := true) else s).(poolStopping := true), order);
    case ShutdownPassEnded(order) => PassSpawnsNothing(s, order);
    case ShutdownReturned =>
    case _ =>
      if e.StopCalled? || e.StopTerminated? || e.StopDrainElapsed? || e.ProcessDied? || e.ExitEmitted?
         || e.StatusPolled? {
        StopEventFrame(s, e);
      } else {
        StartEventFrame(s, e);
      }
  }

  /**
   * If start i spawned between the two, it did so once, for a key no stop is
   * working on, with none of its processes alive but what a stop forgot.
   */
  predicate SpawnedAlone(s: Pool, t: Pool, i: StartId) {
    t.procs != s.procs ==>
      && i < |s.startTasks| && t.procs == s.procs + [Spawned(s.startTasks[i].key, i)]
      && s.startTasks[i].key !in s.stops
      && forall p :: p in s.live ==> p < |s.procs| && (s.procs[p].key != s.startTasks[i].key || p in s.forgotten)
  }

  lemma SpawnsAlone(s: Pool, i: StartId, spawn: SpawnResult)
    requires Inv(s)
    ensures SpawnedAlone(s, AnswerPort(s, i, spawn), i)
  {
    if InPhase(s, i, AwaitPort) && !Superseded(s, i) {
      assert PreSpawn(s.startTasks[i]);
      assert forall p :: p in s.live && p !in s.forgotten ==> p in Tracked(s);
    }
  }

  /**
   * In every run, a start that spawns does so only when no process owned for
   * its key is alive, unless a stop forgot it, and only when no stop superseded
   * its generation.
   */
  lemma SpawnsAloneAndCurrent(es: seq<Event>, e: Event, n: nat)
    requires n < |NewProcs(Run(Initial, es), e)|
    ensures var s := Run(Initial, es); var spawned := NewProcs(s, e)[n];
      && spawned.start < |s.startTasks| && s.startTasks[spawned.start].key == spawned.key
      && s.startTasks[spawned.start].generation == Generation(s, spawned.key)
      && spawned.key !in s.stops
      && (forall p :: p in s.live ==> p < |s.procs| && (s.procs[p].key != spawned.key || p in s.forgotten))
  {
    RunKeeps(es);
    var s := Run(Initial, es);
    StepEffects(s, e);
    assert NewProcs(s, e) == [Spawned(s.startTasks[e.start].key, e.start)];
    SpawnsAlone(s, e.start, e.spawn);
  }

  /** Of two live processes owned for one key, a stop forgot at least one. */
  lemma AtMostOneLive(es: seq<Event>, p: Proc, q: Proc)
    requires p in Run(Initial, es).live && q in Run(Initial, es).live
    requires p < |Run(Initial, es).procs| && q < |Run(Initial, es).procs|
    requires Run(Initial, es).procs[p].key == Run(Initial, es).procs[q].key
    ensures p == q || p in Run(Initial, es).forgotten || q in Run(Initial, es).forgotten
  {
    RunKeeps(es);
    var s := Run(Initial, es);
    if p in Tracked(s) && q in Tracked(s) {
      assert Held(s.procs[p].key, p, s.dashboards, s.stops, s.stopTasks);
      assert Held(s.procs[q].key, q, s.dashboards, s.stops, s.stopTasks);
    }
  }

  /** What is alive is held by the map or by a stop, or a stop forgot it. */
  lemma LiveIsHeldOrForgotten(es: seq<Event>, p: Proc)
    requires p in Run(Initial, es).live
    ensures var s := Run(Initial, es);
      p < |s.procs| && (Held(s.procs[p].key, p, s.dashboards, s.stops, s.stopTasks) || p in s.forgotten)
  {
    RunKeeps(es);
    var s := Run(Initial, es);
    assert p in Tracked(s) || p in s.forgotten;
  }

  /** And forgotten means just that: the step that forgets a live process is the one after which nothing holds it. */
  lemma ForgottenExactly(s: Pool, e: Event, p: Proc)
    requires Inv(s) && Enabled(s, e) && p in Step(s, e).live && p !in s.forgotten
    ensures var t := Step(s, e);
      p < |t.procs| && (p in t.forgotten <==> !Held(t.procs[p].key, p, t.dashboards, t.stops, t.stopTasks))
  {
    hide DashboardsOwned, SlotsIndexed, StopsIndexed, StopsRegistered, ManagedOwned, ProcsOwned, WaitsIndexed,
      GenerationsReached, WokenTogether, NoLateRoot, SpawnersAlone, Step;
    StepKeeps(s, e);
    var t := Step(s, e);
    if p in t.forgotten {
      StepEffects(s, e);
      StepLate(s, e.stop, e.result);
      ForgettingUnholds(s, e.stop, e.result, p);
    } else {
      assert p in Tracked(t);
    }
  }

  lemma StepLate(s: Pool, j: StopId, result: Termination)
    ensures Step(s, StopLateTerminated(j, result)) == AnswerLate(s, j, result)
  {
  }

  lemma ForgettingUnholds(s: Pool, j: StopId, result: Termination, p: Proc)
    requires Inv(s) && p !in s.forgotten
    requires j < |s.stopTasks| && s.stopTasks[j].phase.StopLate?
    requires p in AnswerLate(s, j, result).live && p in AnswerLate(s, j, result).forgotten
    ensures var t := AnswerLate(s, j, result);
      p < |t.procs| && !Held(t.procs[p].key, p, t.dashboards, t.stops, t.stopTasks)
  {
    hide Inv, Conclude;
    var task := s.stopTasks[j];
    var u := Terminated(s, task.phase.late, result);
    var failed := task.phase.failed || result.Survived?;
    ConcludeFrame(u, j, Some(task.phase.late), failed);
    assert p in LetGo(u, task);
    WorkingStop(s, j, p);
    ConcludeUnholds(u, j, task.phase.late, p);
    var v := Conclude(u, j, Some(task.phase.late), failed);
    assert u.procs == s.procs && u.stops == s.stops && u.stopTasks == s.stopTasks;
    hide AnswerLate, Terminated, LetGo;
    NotHeld(v, task.key, j, p);
  }

  lemma NotHeld(t: Pool, key: Key, j: StopId, p: Proc)
    requires key in t.stops && t.stops[key] == j && j < |t.stopTasks| && t.stopTasks[j].phase.StopSettled?
    requires Holding(t, key) != Some(p)
    ensures !Held(key, p, t.dashboards, t.stops, t.stopTasks)
  {
  }

  lemma WorkingStop(s: Pool, j: StopId, p: Proc)
    requires Inv(s) && j < |s.stopTasks| && s.stopTasks[j].phase.StopLate?
    requires s.stopTasks[j].managed == Some(p) && p in s.live && p !in s.forgotten
    ensures Owns(s.procs, s.stopTasks[j].key, p) && p != s.stopTasks[j].phase.late
    ensures s.stopTasks[j].key in s.stops && s.stops[s.stopTasks[j].key] == j
  {
    assert p in Tracked(s);
  }

  lemma ConcludeUnholds(u: Pool, j: StopId, late: Proc, p: Proc)
    requires j < |u.stopTasks| && p != late && Holding(u, u.stopTasks[j].key) != Some(p)
    ensures var t := Conclude(u, j, Some(late), true);
      && t.live == u.live && t.stops == u.stops && j < |t.stopTasks| && t.stopTasks[j].phase.StopSettled?
      && Holding(t, u.stopTasks[j].key) != Some(p)
  {
  }

  // ---------------------------------------------------------------------
  // The branch for a late process
  // ---------------------------------------------------------------------

  /** The root of a late process is dead; what the termination found alive are its descendants. */
  lemma LateRootIsDead(es: seq<Event>, j: StopId)
    requires j < |Run(Initial, es).stopTasks| && Run(Initial, es).stopTasks[j].phase.StopLate?
    ensures var s := Run(Initial, es);
      s.stopTasks[j].phase.late !in s.live || s.stopTasks[j].phase.late in s.forgotten
  {
    RunKeeps(es);
  }

  predicate Early(phase: StopPhase) {
    phase.StopManaged? || phase.StopDraining?
  }

  /** The cleanup of a start reports survivors while the map holds nothing for its key. */
  predicate PutsBack(s: Pool, e: Event, key: Key, p: Proc) {
    && e.CleanupAnswered? && e.result.Survived?
    && e.start < |s.startTasks| && s.startTasks[e.start].key == key && s.startTasks[e.start].phase == AwaitCleanup(p)
    && key !in s.dashboards
  }

  /** Event n put back a process other than the one stop j took out, and it stayed in the map ever since. */
  predicate PutBackAt(es: seq<Event>, n: nat, j: StopId, p: Proc)
    requires n < |es| && j < |Run(Initial, es).stopTasks|
  {
    var s := Run(Initial, es[..n]);
    var t := Run(Initial, es).stopTasks[j];
    && j < |s.stopTasks| && Enabled(s, es[n]) && t.managed != Some(p)
    && PutsBack(s, es[n], t.key, p)
    && forall m :: n < m <= |es| ==> Holding(Run(Initial, es[..m]), t.key) == Some(p)
  }

  /** What a step leaves of the stops there were. */
  predicate StopsAdvance(before: seq<StopTask>, after: seq<StopTask>) {
    && |before| <= |after|
    && forall j :: 0 <= j < |before| ==>
         && after[j].key == before[j].key && after[j].managed == before[j].managed
         && (Early(after[j].phase) ==> Early(before[j].phase))
  }

  /** Every entry of the map was there before. */
  predicate EntriesStay(s: Pool, t: Pool) {
    forall k :: k in t.dashboards ==> Holding(s, k) == Holding(t, k)
  }

  /** Nothing but map entries leaves, and stops begin with their key out of the map. */
  predicate OnlyTakesOut(s: Pool, t: Pool) {
    && EntriesStay(s, t) && StopsAdvance(s.stopTasks, t.stopTasks)
    && forall j :: |s.stopTasks| <= j < |t.stopTasks| ==> t.stopTasks[j].key !in t.dashboards
  }

  lemma OnlyTakesOutTwice(s: Pool, t: Pool, u: Pool)
    requires OnlyTakesOut(s, t) && OnlyTakesOut(t, u)
    ensures OnlyTakesOut(s, u)
  {
    forall k | k in u.dashboards
      ensures Holding(s, k) == Holding(u, k)
    {
      assert Holding(t, k) == Holding(u, k);
    }
    forall j | |s.stopTasks| <= j < |u.stopTasks|
      ensures u.stopTasks[j].key !in u.dashboards
    {
      if j < |t.stopTasks| {
        assert t.stopTasks[j].key == u.stopTasks[j].key;
        assert t.stopTasks[j].key in u.dashboards ==> Holding(t, t.stopTasks[j].key).Some?;
      }
    }
  }

  lemma SameTakesOut(s: Pool, t: Pool)
    requires t.dashboards == s.dashboards && t.stopTasks == s.stopTasks
    ensures OnlyTakesOut(s, t)
  {
  }

  lemma CallStopTakesOut(s: Pool, key: Key)
    ensures OnlyTakesOut(s, CallStop(s, key))
  {
  }

  lemma {:induction false} CallStopsTakeOut(s: Pool, order: seq<Key>)
    ensures OnlyTakesOut(s, CallStops(s, order))
    decreases |order|
  {
    if order == [] {
      SameTakesOut(s, s);
    } else {
      hide OnlyTakesOut, CallStop;
      CallStopTakesOut(s, order[0]);
      CallStopsTakeOut(CallStop(s, order[0]), order[1..]);
      OnlyTakesOutTwice(s, CallStop(s, order[0]), CallStops(s, order));
    }
  }

  lemma PassTakesOut(s: Pool, order: seq<Key>)
    ensures OnlyTakesOut(s, Pass(s, order))
  {
    SameTakesOut(s, s.(shutdown := Ended(true)));
    CallStopsTakeOut(s, order);
  }

  lemma AdmitTakesOut(s: Pool, i: StartId, supported: bool)
    requires i < |s.startTasks|
    ensures OnlyTakesOut(s, Admit(s, i, supported))
  {
  }

  lemma CallTakesOut(s: Pool, key: Key, supported: bool)
    ensures OnlyTakesOut(s, CallStart(s, key, supported))
  {
    hide Admit;
    AdmitTakesOut(s.(startTasks := s.startTasks + [StartTask(key, 0, Admitting)]), |s.startTasks|, supported);
  }

  lemma ResumeTakesOut(s: Pool, supported: bool)
    ensures OnlyTakesOut(s, ResumeStart(s, supported))
  {
    hide Admit;
    if s.woken != [] && s.woken[0] < |s.startTasks| {
      AdmitTakesOut(s.(woken := s.woken[1..]), s.woken[0], supported);
    }
  }

  lemma AnswersTakeOut(s: Pool, i: StartId, probe: Probe, ready: bool)
    ensures OnlyTakesOut(s, AnswerHealth(s, i, probe))
    ensures OnlyTakesOut(s, AnswerRecovery(s, i, probe))
    ensures OnlyTakesOut(s, AnswerReady(s, i, ready))
    ensures OnlyTakesOut(s, ReturnStart(s, i))
  {
    hide OnlyTakesOut, Superseded, SetStart;
    SameTakesOut(s, s);
    forall phase | i < |s.startTasks|
      ensures SetStart(s, i, phase).dashboards == s.dashboards && SetStart(s, i, phase).stopTasks == s.stopTasks
    {
      SetStartTouches(s, i, phase);
    }
    SameTakesOut(s, AnswerHealth(s, i, probe));
    SameTakesOut(s, AnswerRecovery(s, i, probe));
    SameTakesOut(s, AnswerReady(s, i, ready));
    SameTakesOut(s, ReturnStart(s, i));
  }

  lemma SetStartTouches(s: Pool, i: StartId, phase: StartPhase)
    requires i < |s.startTasks|
    ensures SetStart(s, i, phase).dashboards == s.dashboards && SetStart(s, i, phase).stopTasks == s.stopTasks
  {
  }

  lemma CleanupTakesOut(s: Pool, i: StartId)
    ensures OnlyTakesOut(s, AnswerCleanup(s, i, Exited))
  {
  }

  lemma TerminationTakesOut(s: Pool, j: StopId, result: Termination)
    ensures OnlyTakesOut(s, AnswerStop(s, j, result))
  {
    hide OnlyTakesOut, SetStop;
    SameTakesOut(s, s);
    if j < |s.stopTasks| && s.stopTasks[j].phase == StopManaged && s.stopTasks[j].managed.Some? {
      var t := Terminated(s, s.stopTasks[j].managed.value, result);
      SameTakesOut(s, t);
      DrainingTakesOut(t, j, result.Survived?);
      OnlyTakesOutTwice(s, t, SetStop(t, j, StopDraining(result.Survived?)));
    }
  }

  lemma DrainingTakesOut(s: Pool, j: StopId, failed: bool)
    requires j < |s.stopTasks| && s.stopTasks[j].phase == StopManaged
    ensures OnlyTakesOut(s, SetStop(s, j, StopDraining(failed)))
  {
  }

  lemma WakeKeepsSlots(s: Pool, j: StopId, ok: bool)
    ensures Wake(s, j, ok).starts == s.starts && Wake(s, j, ok).poolClosed == s.poolClosed
    ensures Wake(s, j, ok).dashboards == s.dashboards && Wake(s, j, ok).stopTasks == s.stopTasks
  {
    hide WaitersFrom, WakeTask;
  }

  lemma ReturnStopTakesOut(s: Pool, j: StopId)
    ensures OnlyTakesOut(s, ReturnStop(s, j))
  {
    hide Wake;
    if j < |s.stopTasks| && s.stopTasks[j].phase.StopSettled? {
      WakeKeepsSlots(ReleaseStop(s, j), j, s.stopTasks[j].phase.ok);
    }
  }

  predicate TakesOut(e: Event) {
    || e.StartCalled? || e.StartResumed? || e.HealthAnswered? || e.RecoveryAnswered? || e.ReadyAnswered?
    || e.StartReturned? || (e.CleanupAnswered? && e.result.Exited?) || e.StopCalled? || e.StopTerminated?
    || e.StopReturned? || e.ShutdownCalled? || e.ShutdownPassEnded? || e.ShutdownReturned? || e.ProcessDied?
    || e.ExitEmitted? || e.StatusPolled?
  }

  lemma StepTakesOut(s: Pool, e: Event)
    requires TakesOut(e)
    ensures OnlyTakesOut(s, Step(s, e))
  {
    hide OnlyTakesOut, CallStart, ResumeStart, AnswerHealth, AnswerRecovery, AnswerReady, AnswerCleanup, ReturnStart,
      CallStop, AnswerStop, ReturnStop, Pass;
    SameTakesOut(s, s);
    match e
    case StartCalled(key, supported) => CallTakesOut(s, key, supported);
    case StartResumed(supported) => ResumeTakesOut(s, supported);
    case HealthAnswered(i, healthy) => AnswersTakeOut(s, i, healthy, true);
    case RecoveryAnswered(i, recovered) => AnswersTakeOut(s, i, recovered, true);
    case ReadyAnswered(i, ready) => AnswersTakeOut(s, i, Yes, ready);
    case StartReturned(i) => AnswersTakeOut(s, i, Yes, true);
    case CleanupAnswered(i, _) => CleanupTakesOut(s, i);
    case StopCalled(key) => CallStopTakesOut(s, key);
    case StopTerminated(j, result) => TerminationTakesOut(s, j, result);
    case StopReturned(j) => ReturnStopTakesOut(s, j);
    case ShutdownCalled(close, order) => ShutdownTakesOut(s, close, order);
    case ShutdownPassEnded(order) =>
      PassTakesOut(s, order);
      SameTakesOut(s, s.(shutdown := Ended(false)));
    case ShutdownReturned => SameTakesOut(s, Step(s, e));
    case ProcessDied(_) => SameTakesOut(s, Step(s, e));
    case ExitEmitted(p) => ExitTakesOut(s, p);
    case StatusPolled(key) => PollTakesOut(s, key);
  }

  lemma PollTakesOut(s: Pool, key: Key)
    ensures OnlyTakesOut(s, PollStatus(s, key))
  {
  }

  lemma ExitTakesOut(s: Pool, p: Proc)
    ensures OnlyTakesOut(s, EmitExit(s, p))
  {
  }

  lemma ShutdownTakesOut(s: Pool, close: bool, order: seq<Key>)
    ensures OnlyTakesOut(s, CallShutdown(s, close, order))
  {
    hide Pass;
    PassTakesOut((if close then s.(poolClosed := true) else s).(poolStopping := true), order);
  }

  /** While a stop takes out or drains, an entry for its key was there before or was put back by a cleanup. */
  lemma EntryOrigin(s: Pool, e: Event, j: StopId, p: Proc)
    requires Inv(s) && Enabled(s, e)
    requires j < |Step(s, e).stopTasks| && Early(Step(s, e).stopTasks[j].phase)
    requires Holding(Step(s, e), Step(s, e).stopTasks[j].key) == Some(p)
    ensures j < |s.stopTasks| && Early(s.stopTasks[j].phase)
    ensures Step(s, e).stopTasks[j].key == s.stopTasks[j].key && Step(s, e).stopTasks[j].managed == s.stopTasks[j].managed
    ensures Holding(s, s.stopTasks[j].key) == Some(p) || PutsBack(s, e, s.stopTasks[j].key, p)
  {
    hide DashboardsOwned, SlotsIndexed, StopsIndexed, ManagedOwned, ProcsOwned, WaitsIndexed, GenerationsReached,
      WokenTogether, NoLateRoot, NoOrphan, SpawnersAlone, LiveSpawned, CallStop, CallStart, Pass, ResumeStart,
      AnswerPort, AnswerCleanup, AnswerHealth, AnswerRecovery, AnswerReady, ReturnStart, AnswerStop, ElapseDrain,
      AnswerLate, ReturnStop, CallShutdown, EndPass, ReturnShutdown, EmitExit, PutsBack;
    if TakesOut(e) {
      hide Step;
      StepTakesOut(s, e);
      assert StopsAdvance(s.stopTasks, Step(s, e).stopTasks);
    } else {
      match e
      case PortAnswered(i, spawn) => SpawnsElsewhere(s, i, spawn, j);
      case CleanupAnswered(i, result) => CleanupPutsBack(s, i, result, j, p);
      case _ => DrainElsewhere(s, e, j);
    }
  }

  lemma SpawnsElsewhere(s: Pool, i: StartId, spawn: SpawnResult, j: StopId)
    requires Inv(s)
    ensures AnswerPort(s, i, spawn).stopTasks == s.stopTasks
    ensures j < |s.stopTasks| && Early(s.stopTasks[j].phase) ==>
      Holding(AnswerPort(s, i, spawn), s.stopTasks[j].key) == Holding(s, s.stopTasks[j].key)
  {
    if j < |s.stopTasks| && Early(s.stopTasks[j].phase) {
      assert s.stopTasks[j].key in s.stops;
      if InPhase(s, i, AwaitPort) {
        assert PreSpawn(s.startTasks[i]);
      }
    }
  }

  lemma CleanupPutsBack(s: Pool, i: StartId, result: Termination, j: StopId, p: Proc)
    requires result.Survived?
    ensures AnswerCleanup(s, i, result).stopTasks == s.stopTasks
    ensures j < |s.stopTasks| && Holding(AnswerCleanup(s, i, result), s.stopTasks[j].key) == Some(p) ==>
      Holding(s, s.stopTasks[j].key) == Some(p) || PutsBack(s, CleanupAnswered(i, result), s.stopTasks[j].key, p)
  {
  }

  /** Everything about other keys and other stops stays. */
  ghost predicate ChangesOnly(s: Pool, t: Pool, k: StopId, key: Key) {
    && |t.stopTasks| == |s.stopTasks|
    && (forall j :: 0 <= j < |s.stopTasks| && j != k ==> t.stopTasks[j] == s.stopTasks[j])
    && (forall other :: other != key ==> Holding(t, other) == Holding(s, other))
  }

  lemma ConcludeChangesOnly(s: Pool, k: StopId, late: Option<Proc>, failed: bool)
    requires k < |s.stopTasks|
    ensures ChangesOnly(s, Conclude(s, k, late, failed), k, s.stopTasks[k].key)
    ensures Conclude(s, k, late, failed).stopTasks[k].phase.StopSettled?
  {
  }

  lemma DrainChangesOnly(s: Pool, k: StopId)
    requires k < |s.stopTasks| && s.stopTasks[k].phase.StopDraining?
    ensures ChangesOnly(s, ElapseDrain(s, k), k, s.stopTasks[k].key) && !Early(ElapseDrain(s, k).stopTasks[k].phase)
  {
    hide Conclude;
    var t := s.stopTasks[k];
    ConcludeChangesOnly(s, k, Holding(s, t.key), t.phase.failed);
  }

  lemma LateChangesOnly(s: Pool, k: StopId, result: Termination)
    requires k < |s.stopTasks| && s.stopTasks[k].phase.StopLate?
    ensures ChangesOnly(s, AnswerLate(s, k, result), k, s.stopTasks[k].key)
    ensures !Early(AnswerLate(s, k, result).stopTasks[k].phase)
  {
    hide Conclude;
    var t := s.stopTasks[k];
    var u := Terminated(s, t.phase.late, result);
    var v := Conclude(u, k, Some(t.phase.late), t.phase.failed || result.Survived?);
    ConcludeChangesOnly(u, k, Some(t.phase.late), t.phase.failed || result.Survived?);
    assert u.dashboards == s.dashboards && u.stopTasks == s.stopTasks;
    assert AnswerLate(s, k, result).dashboards == v.dashboards && AnswerLate(s, k, result).stopTasks == v.stopTasks;
    forall other | other != t.key
      ensures Holding(AnswerLate(s, k, result), other) == Holding(s, other)
    {
      assert Holding(v, other) == Holding(u, other);
    }
  }

  /** A stop that goes on changes the entry of its own key only, and another stop has another key. */
  lemma DrainElsewhere(s: Pool, e: Event, j: StopId)
    requires Inv(s) && (e.StopDrainElapsed? || e.StopLateTerminated?)
    requires j < |Step(s, e).stopTasks| && Early(Step(s, e).stopTasks[j].phase)
    ensures j < |s.stopTasks| && Step(s, e).stopTasks[j] == s.stopTasks[j]
    ensures Holding(Step(s, e), s.stopTasks[j].key) == Holding(s, s.stopTasks[j].key)
  {
    hide DashboardsOwned, SlotsIndexed, StopsIndexed, ManagedOwned, ProcsOwned, WaitsIndexed, GenerationsReached,
      WokenTogether, NoLateRoot, NoOrphan, SpawnersAlone, LiveSpawned, Conclude, Terminated, LetGo;
    var k := e.stop;
    if k < |s.stopTasks| && (if e.StopDrainElapsed? then s.stopTasks[k].phase.StopDraining? else s.stopTasks[k].phase.StopLate?) {
      if e.StopDrainElapsed? {
        DrainChangesOnly(s, k);
      } else {
        LateChangesOnly(s, k, e.result);
      }
      hide ElapseDrain, AnswerLate;
      assert s.stops[s.stopTasks[j].key] == j && s.stops[s.stopTasks[k].key] == k;
    }
  }

  /** When stop j goes on after its drain, it turns to a late process p. */
  predicate EntersLate(s: Pool, j: StopId, p: Proc)
    requires j < |s.stopTasks|
  {
    var t := ElapseDrain(s, j);
    j < |t.stopTasks| && t.stopTasks[j].phase.StopLate? && t.stopTasks[j].phase.late == p
  }

  lemma EntersLateGuard(s: Pool, j: StopId, p: Proc)
    requires j < |s.stopTasks| && s.stopTasks[j].phase.StopDraining?
    ensures EntersLate(s, j, p) <==> Holding(s, s.stopTasks[j].key) == Some(p) && s.stopTasks[j].managed != Some(p)
  {
    hide Conclude;
    ConcludeChangesOnly(s, j, Holding(s, s.stopTasks[j].key), s.stopTasks[j].phase.failed);
  }

  /**
   * The branch for a late process is entered exactly if, while the stop was at
   * work, the cleanup of an earlier start reported survivors of another process
   * whose entry had gone, and that entry is still there.
   */
  lemma {:induction false} LateBranchExactly(es: seq<Event>, j: StopId, p: Proc)
    requires j < |Run(Initial, es).stopTasks| && Run(Initial, es).stopTasks[j].phase.StopDraining?
    ensures var s := Run(Initial, es);
      EntersLate(s, j, p) <==> exists n :: 0 <= n < |es| && PutBackAt(es, n, j, p)
  {
    var s := Run(Initial, es);
    assert es[..|es|] == es;
    EntersLateGuard(s, j, p);
    hide ElapseDrain, EntersLate;
    if EntersLate(s, j, p) {
      LateOrigin(es, j, p);
    }
  }

  lemma {:induction false} LateOrigin(es: seq<Event>, j: StopId, p: Proc)
    requires j < |Run(Initial, es).stopTasks| && Early(Run(Initial, es).stopTasks[j].phase)
    requires var s := Run(Initial, es);
      Holding(s, s.stopTasks[j].key) == Some(p) && s.stopTasks[j].managed != Some(p)
    ensures exists n :: 0 <= n < |es| && PutBackAt(es, n, j, p)
  {
    hide Inv, Step, PutsBack, Enabled;
    if es != [] {
      var before, last := es[..|es| - 1], es[|es| - 1];
      var r := Run(Initial, before);
      RunKeeps(before);
      if Enabled(r, last) {
        EntryOrigin(r, last, j, p);
      }
      if Holding(r, r.stopTasks[j].key) == Some(p) {
        LateOrigin(before, j, p);
        var n :| 0 <= n < |before| && PutBackAt(before, n, j, p);
        PutBackLasts(es, n, j, p);
      } else {
        PutBackLast(es, j, p);
      }
    }
  }

  lemma PutBackLasts(es: seq<Event>, n: nat, j: StopId, p: Proc)
    requires es != [] && n < |es| - 1 && j < |Run(Initial, es[..|es| - 1]).stopTasks| && j < |Run(Initial, es).stopTasks|
    requires PutBackAt(es[..|es| - 1], n, j, p)
    requires var t := Run(Initial, es).stopTasks[j]; var u := Run(Initial, es[..|es| - 1]).stopTasks[j];
      t.key == u.key && t.managed == u.managed && Holding(Run(Initial, es), t.key) == Some(p)
    ensures PutBackAt(es, n, j, p)
  {
    hide Run, PutsBack, Enabled, Holding;
    var before := es[..|es| - 1];
    assert before[..n] == es[..n] && es[..|es|] == es;
    forall m | n < m <= |es|
      ensures Holding(Run(Initial, es[..m]), Run(Initial, es).stopTasks[j].key) == Some(p)
    {
      assert m < |es| ==> before[..m] == es[..m];
    }
  }

  lemma PutBackLast(es: seq<Event>, j: StopId, p: Proc)
    requires es != [] && j < |Run(Initial, es[..|es| - 1]).stopTasks| && j < |Run(Initial, es).stopTasks|
    requires var t := Run(Initial, es).stopTasks[j];
      && t.managed != Some(p) && Holding(Run(Initial, es), t.key) == Some(p)
      && Enabled(Run(Initial, es[..|es| - 1]), es[|es| - 1])
      && PutsBack(Run(Initial, es[..|es| - 1]), es[|es| - 1], t.key, p)
    ensures PutBackAt(es, |es| - 1, j, p)
  {
    hide Run, PutsBack, Enabled, Holding;
    assert es[..|es|] == es;
  }

  /** No owned process is alive, no start holds a slot, and the pool admits none any more. */
  predicate Down(s: Pool) {
    s.poolClosed && Quiet(s)
  }

  lemma AdmissionStaysDown(s: Pool, key: Key, supported: bool)
    requires Down(s)
    ensures Down(CallStart(s, key, supported)) && Down(ResumeStart(s, supported))
  {
  }

  lemma SetStartStaysDown(s: Pool, i: StartId, phase: StartPhase)
    requires Down(s) && i < |s.startTasks|
    ensures Down(SetStart(s, i, phase)) && SetStart(s, i, phase).starts == map[]
  {
  }

  lemma AnswersStayDown(s: Pool, i: StartId, probe: Probe, ready: bool)
    requires Down(s)
    ensures Down(AnswerHealth(s, i, probe))
    ensures Down(AnswerRecovery(s, i, probe))
    ensures Down(AnswerReady(s, i, ready))
    ensures Down(ReturnStart(s, i))
  {
    hide SetStart, Superseded;
    forall phase | i < |s.startTasks|
      ensures Down(SetStart(s, i, phase)) && SetStart(s, i, phase).starts == map[]
    {
      SetStartStaysDown(s, i, phase);
    }
  }

  lemma PortStaysDown(s: Pool, i: StartId, spawn: SpawnResult)
    requires Inv(s) && Down(s)
    ensures Down(AnswerPort(s, i, spawn)) && AnswerPort(s, i, spawn).procs == s.procs
  {
    if InPhase(s, i, AwaitPort) {
      assert PreSpawn(s.startTasks[i]);
    }
  }

  lemma CleanupStaysDown(s: Pool, i: StartId, result: Termination)
    requires Down(s)
    ensures Down(AnswerCleanup(s, i, result))
  {
  }

  lemma CallStopStaysDown(s: Pool, key: Key)
    requires Down(s)
    ensures Down(CallStop(s, key))
  {
    assert s.starts - {key} == map[];
  }

  lemma AnswerStopStaysDown(s: Pool, j: StopId, result: Termination)
    requires Down(s)
    ensures Down(AnswerStop(s, j, result))
  {
  }

  lemma ConcludeStaysDown(s: Pool, j: StopId, late: Option<Proc>, failed: bool)
    requires Down(s) && j < |s.stopTasks|
    ensures Down(Conclude(s, j, late, failed))
  {
  }

  lemma ElapseDrainStaysDown(s: Pool, j: StopId)
    requires Down(s)
    ensures Down(ElapseDrain(s, j))
  {
    hide Conclude;
    if j < |s.stopTasks| && s.stopTasks[j].phase.StopDraining? {
      ConcludeStaysDown(s, j, Holding(s, s.stopTasks[j].key), s.stopTasks[j].phase.failed);
    }
  }

  lemma AnswerLateStaysDown(s: Pool, j: StopId, result: Termination)
    requires Down(s)
    ensures Down(AnswerLate(s, j, result))
  {
    hide Conclude;
    if j < |s.stopTasks| && s.stopTasks[j].phase.StopLate? {
      var t := s.stopTasks[j];
      var u := Terminated(s, t.phase.late, result);
      ConcludeStaysDown(u, j, Some(t.phase.late), t.phase.failed || result.Survived?);
      ConcludeFrame(u, j, Some(t.phase.late), t.phase.failed || result.Survived?);
    }
  }

  lemma ReturnStopStaysDown(s: Pool, j: StopId)
    requires Down(s)
    ensures Down(ReturnStop(s, j))
  {
    hide Wake;
    if j < |s.stopTasks| && s.stopTasks[j].phase.StopSettled? {
      WakeFrame(ReleaseStop(s, j), j, s.stopTasks[j].phase.ok);
      WakeKeepsSlots(ReleaseStop(s, j), j, s.stopTasks[j].phase.ok);
    }
  }

  lemma {:induction false} CallStopsStayDown(s: Pool, order: seq<Key>)
    requires Down(s)
    ensures Down(CallStops(s, order))
    decreases |order|
  {
    if order != [] {
      CallStopStaysDown(s, order[0]);
      CallStopsStayDown(CallStop(s, order[0]), order[1..]);
    }
  }

  lemma PassStaysDown(s: Pool, order: seq<Key>)
    requires Down(s)
    ensures Down(Pass(s, order))
  {
    CallStopsStayDown(s, order);
  }

  lemma StepStaysDown(s: Pool, e: Event)
    requires Inv(s) && Down(s) && Enabled(s, e)
    ensures Down(Step(s, e)) && Step(s, e).procs == s.procs
  {
    hide Inv, CallStart, ResumeStart, AnswerHealth, AnswerRecovery, AnswerPort, AnswerReady, AnswerCleanup,
      ReturnStart, CallStop, AnswerStop, ElapseDrain, AnswerLate, ReturnStop;
    StepEffects(s, e);
    match e
    case PortAnswered(i, spawn) => PortStaysDown(s, i, spawn);
    case StartCalled(key, supported) => AdmissionStaysDown(s, key, supported);
    case StartResumed(supported) => AdmissionStaysDown(s, "", supported);
    case HealthAnswered(i, healthy) => AnswersStayDown(s, i, healthy, true);
    case RecoveryAnswered(i, recovered) => AnswersStayDown(s, i, recovered, true);
    case ReadyAnswered(i, ready) => AnswersStayDown(s, i, Yes, ready);
    case StartReturned(i) => AnswersStayDown(s, i, Yes, true);
    case CleanupAnswered(i, result) => CleanupStaysDown(s, i, result);
    case StopCalled(key) => CallStopStaysDown(s, key);
    case StopTerminated(j, result) => AnswerStopStaysDown(s, j, result);
    case StopDrainElapsed(j) => ElapseDrainStaysDown(s, j);
    case StopReturned(j) => ReturnStopStaysDown(s, j);
    case StopLateTerminated(j, result) => AnswerLateStaysDown(s, j, result);
    case ShutdownCalled(close, order) =>
      PassStaysDown((if close then s.(poolClosed := true) else s).(poolStopping := true), order);
    case ShutdownPassEnded(order) => PassStaysDown(s, order);
    case ShutdownReturned =>
    case ProcessDied(_) =>
    case StatusPolled(_) =>
    case ExitEmitted(_) =>
  }

  lemma {:induction false} RunStaysDown(s: Pool, es: seq<Event>)
    requires Inv(s) && Down(s)
    ensures Inv(Run(s, es)) && Down(Run(s, es)) && Run(s, es).procs == s.procs
  {
    if es != [] {
      RunStaysDown(s, es[..|es| - 1]);
      var t := Run(s, es[..|es| - 1]);
      if Enabled(t, es[|es| - 1]) {
        StepKeeps(t, es[|es| - 1]);
        StepStaysDown(t, es[|es| - 1]);
      }
    }
  }

  /** The step that lets a shutdown resolve finds all three maps empty, and nothing alive but what a stop forgot. */
  lemma ShutdownResolvesEmpty(es: seq<Event>, e: Event)
    requires Enabled(Run(Initial, es), e)
    requires Run(Initial, es).shutdown != Ended(true) && Step(Run(Initial, es), e).shutdown == Ended(true)
    ensures var t := Step(Run(Initial, es), e);
      t.live <= t.forgotten && t.dashboards == map[] && t.starts == map[] && t.stops == map[]
  {
    hide Inv, Run, Step;
    RunKeeps(es);
    ResolvesEmpty(Run(Initial, es), e);
  }

  /** If a shutdown resolved between the two, no map holds a key and nothing is alive but what a stop forgot. */
  predicate ResolvedEmpty(s: Pool, t: Pool) {
    t.shutdown == Ended(true) && s.shutdown != Ended(true) ==>
      t.live <= t.forgotten && t.dashboards == map[] && t.starts == map[] && t.stops == map[]
  }

  lemma ResolvesEmpty(s: Pool, e: Event)
    requires Inv(s) && Enabled(s, e)
    ensures ResolvedEmpty(s, Step(s, e))
  {
    if s.shutdown != Ended(true) && Step(s, e).shutdown == Ended(true) {
      JustResolved(s, e);
    }
  }

  lemma JustResolved(s: Pool, e: Event)
    requires Inv(s) && Enabled(s, e) && s.shutdown != Ended(true) && Step(s, e).shutdown == Ended(true)
    ensures ResolvedEmpty(s, Step(s, e))
  {
    hide DashboardsOwned, SlotsIndexed, StopsIndexed, StopsRegistered, ManagedOwned, ProcsOwned, WaitsIndexed,
      GenerationsReached, WokenTogether, NoLateRoot, NoOrphan, SpawnersAlone, LiveSpawned;
    StepKeeps(s, e);
    StepEffects(s, e);
    var u := if e.ShutdownCalled? then (if e.close then s.(poolClosed := true) else s).(poolStopping := true) else s;
    NoKeysNothingLive(u);
  }

  /**
   * Once a pool-closing shutdown has resolved, nothing is ever spawned again,
   * whatever starts and stops were already under way, and nothing is alive but
   * what a stop forgot.
   */
  lemma PoolStaysDown(es: seq<Event>, more: seq<Event>)
    requires Run(Initial, es).shutdown == Ended(true) && Run(Initial, es).poolClosed
    ensures var s := Run(Initial, es); var t := Run(s, more);
      t.live <= t.forgotten && t.starts == map[] && t.procs == s.procs
  {
    RunKeeps(es);
    RunStaysDown(Run(Initial, es), more);
  }
}
