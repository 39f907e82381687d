# Verified models of the desktop's lifecycle protocols and text editors

A Dafny model of the parts of `src/main` that hold durable or concurrent state,
with proofs about every run, every crash point and every input:

- **Owner switch** (`OwnerSwitch.dfy`, `OwnerSwitchProgress.dfy`,
  `ExecutionLease.dfy`): the promise queue that serializes owner transitions, its
  epochs and fail-closed drains, the leases granted for one epoch, and the
  execution lease's `run` on top of them. Every await is a step boundary; a run is
  any sequence of calls, drain outcomes and late settlements. The queue is proved
  to refine a sequential owner machine and to settle every call.
- **Dashboard pool** (`DashboardPool.dfy`, `DashboardAnswers.dfy`,
  `DashboardStops.dfy`, `DashboardRuns.dfy`, `DashboardModule.dfy`): starts,
  stops, pool shutdowns, process deaths and exit events in every interleaving,
  with the module's Maps as the fields of a class whose methods are the code
  between two awaits.
- **Gateway ownership** (`OwnershipFiles.dfy`, `OwnershipProgress.dfy`,
  `OwnershipLedger.dfy`, `GatewayProcessOwnership.dfy`): the pending, canonical
  and backup files with a failure or a crash at any file operation, the ledger's
  transitions, and the classification of records at a cold start.
- **Profile bindings** (`ProfileBindings.dfy`, `BindingAnswers.dfy`): the store's
  operations, what each leaves and refuses, what the store's reader accepts, and
  the reservation protocol that spans an await.
- **Agent identity** (`ManagedBlock.dfy`, `FileTransactions.dfy`,
  `AgentIdentity.dfy`, `IdentityHistory.dfy`, `IdentityChanges.dfy`,
  `AgentIdentityService.dfy`): the marker-delimited block in SOUL text, the
  compensated multi-file transaction, and the undo stack of backups over whole
  runs.
- **Agent sync** (`AgentSync.dfy`, `AgentSyncLaws.dfy`, `AgentSyncRuns.dfy`,
  `AgentLinking.dfy`, `AgentSyncPass.dfy`): linking profiles to cloud agents,
  three-way reconciliation of one pair under failed reads, failed writes and
  refused, unreachable, skipped and throwing calls, runs of passes, and passes
  over pairs that may share an agent.
- **Text editors** (`ConfigBlocks.dfy`, `ConfigBlockLaws.dfy`,
  `ConfigRemoveLaws.dfy`, `DuplicateModels.dfy`, `DuplicateModelLaws.dfy`,
  `McpScalars.dfy`, `McpInput.dfy`, `McpConfig.dfy`, `McpEdits.dfy`,
  `McpLaws.dfy`, `McpRejoin.dfy`, `McpUpsertLaws.dfy`, `McpRemoveLaws.dfy`,
  `McpEnable.dfy`, `McpEnableLaws.dfy`): readers and writers of config text as
  character sequences, over arbitrary surrounding text.
- **Shared** (`Wrappers.dfy`, `Text.dfy`, `TextLines.dfy`): results, the string
  operations of the language the editors are written in, and line splitting.

Where the source changes state, the model is a class or a method with loops
whose contract equates the new state with a specification function; the laws are
lemmas about those functions.

## Assumptions

- Owner switch: `onEvent` and `stopRuntimeContext` do not call `transitionTo`
  synchronously. A drain's race is decided as drained, timed out or failed.
- Dashboard: continuations that await the same stop run back to back when it
  settles; a reported successful termination means the root is dead; a dead root
  stays dead; the liveness probe is accurate. What "alive" means in the laws of
  the pool is the root's liveness, as the probe and the exit event see it. A
  termination may report survivors of a tree whose root is dead, or was: no law
  assumes anything about such a report. The order in which a shutdown visits keys
  is a parameter.
- Ownership files: reads do not fail; rename and unlink are atomic and durable;
  an unsynced file comes out of a loss of power whole, unreadable or not at all,
  and out of the death of the process as it was.
- Bindings: generated runtime ids miss pending reservations. `BindExistingAcceptedExactly`
  says exactly when that matters.
- Sync: the backend stores an accepted PATCH as sent; the local model
  configuration reads back what a pull wrote; a failed local write leaves the file
  as it was or has replaced it; a color write, which nothing awaits, has settled
  when the next pass begins; nobody edits a part on either side while a pass runs;
  a profile whose sync state cannot be read is linked to the same agent by name;
  content hashes do not collide.

## What the proofs found

- **Lost ownership state.** If the bytes of a new pending file are written but
  neither fsynced nor removed again (both calls fail, or the process dies in
  between), the next save or cold start renames that file over the canonical one,
  and a loss of power can lose both states (`UnsyncedPendingLosesEverything`).
  `AtomicExactlyWhenDurable`, `ReadStatePreservesExactly` and
  `PersistDurableExactly` say exactly which disks and schedules are safe.
- **Saves that cannot work.** An unreadable pending file makes every save fail until
  a cold start removes it (`FaultFreeSave`, `FaultFreeColdStart`).
- **Reserved runtime ids.** Binding an existing Profile does not look at pending
  reservations (`BindExistingAcceptedExactly`).
- **Forgotten process.** `stopDashboard` meets a late process exactly when the
  cleanup of an earlier start puts back a tree whose root had exited
  (`LateBranchExactly`, `LateProcessComes`). If the stop has also failed to
  terminate the process it took out, it restores only the late one: the other is
  alive and in no map (`ForgottenExactly`, `LiveProcessLost`), and a later start
  spawns another beside it (`TwoLiveForOneKey`). Every law of the pool about live
  processes names these as its exception.
- **Last revision.** A rename at the highest safe revision reports success and
  leaves an identity state that no later call can read (`LastRevisionLocksTheIdentity`).
- **Lost pulls.** A cloud color that is no six-digit hex, a failed write of a color
  or persona, and an emptied model are passed over in silence, yet recorded as
  common ground; the next pass pushes the old value back over the cloud edit
  (`LosesByPullOnly`, `UnappliableEditIsLost`, `LostPullIsPushedBack`,
  `EmptiedModelIsPushedBack`).
- **Failed reads.** An unreadable persona is taken for an empty one, unreadable
  metadata for the default color, and an unreadable sync state for none. Two passes
  can so erase a persona on both sides that nobody had touched, or that only the
  local side had (`FailedReadErasesPersona`), and one pass can overwrite a cloud
  edit (`FailedReadOverwritesCloudEdit`) or any color (`FailedReadDisturbs`).
  `LocalEditSurvivesExactly`, `RemoteEditSurvivesExactly` and
  `UneditedSurvivesExactly` say exactly which passes do it.
- **Shared agents.** Of two profiles whose stored links name one agent, the later
  push in a pass wins, and the next pass pulls it over the other's edit without
  looking at timestamps (`SharedPushSurvivesExactly`).
- **Orphaned children.** A bare duplicate `model:` line with two or more spaces
  behind the colon is taken for a scalar: the line goes, its children stay and join
  the section before it (`ChildrenGoExactly`).
- **Removed key.** Removing the first child of a block can hand the block to
  deeper lines, which are then read as its children (`ReadAfterRemove`).
- **Bare header at the end of a config document.** Inserting into a block whose
  bare header is the unterminated last line adds a second header behind it, and
  the new key is not read (`ReadAfterUpsertExactly`).
- **Second MCP section.** Removing the last server removes its section, and a
  second section of the same header behind it takes its place (`ReadAfterRemoveExactly`).
- **Doubled carriage returns.** A field line that ends in one is not read before
  an edit and is read after it, because an edit rejoins the lines: writing one
  server then changes another (`StrayReturnChangesServer`, `ReadAfterUpsert`).
- **Duplicate enabled lines.** Switching a server sets its first `enabled` line
  while the reader takes the last one (`ReadAfterEnable`).
- Rewriting an MCP server drops its `enabled` and `tools` fields, so a disabled
  server that is saved again is enabled; `ReadAfterUpsert` states the new fields.

## Model

| member | source | states |
|---|---|---|
| OwnerSwitch.StepAdmits | src/main/agentera-connection-owner.ts:550-615 | no step drops, repeats or reorders an admitted `transitionTo` call |
| OwnerSwitch.QueueRefinesSequential | src/main/agentera-connection-owner.ts:401-615 | over every run the settled calls are the first calls in call order, each with the outcome of a sequential owner machine, and once all have settled owner, state, block code and epoch are those of that machine folded over every call, no-ops included |
| OwnerSwitchProgress.QueueMovesOn | src/main/agentera-connection-owner.ts:594-615 | with no body under way, the next step of a nonempty queue starts or settles its first request and takes it out |
| OwnerSwitchProgress.DrainSettles | src/main/agentera-connection-owner.ts:478-548 | a decided race settles the request that drained |
| OwnerSwitchProgress.EveryCallSettles | src/main/agentera-connection-owner.ts:550-615 | from every reachable state, for any outcomes of the drains, at most three steps per pending request settle every call made, in call order and as the sequential machine does |
| OwnerSwitchProgress.NoopCallSettlesAtOnce | src/main/agentera-connection-owner.ts:550-568 | a call that names the mounted owner while nothing is pending is answered at once and changes nothing else |
| OwnerSwitchProgress.AcquireExactly | src/main/agentera-connection-owner.ts:617-631 | after every run a lease is granted exactly if nothing drains and the calls settled so far leave an owner mounted, and a blocked switch is reported with its own code |
| OwnerSwitchProgress.StaleExactly | src/main/agentera-connection-owner.ts:632-650 | what a lease of an earlier epoch is told: another owner exactly if one is mounted, the block's code exactly if the switch is blocked |
| OwnerSwitch.TransitionsNeverOverlap | src/main/agentera-connection-owner.ts:550-615 | one transition body has ended before the next begins |
| OwnerSwitch.RunKeepsInv | src/main/agentera-connection-owner.ts:401-656 | the coordinator's invariant, and the admitted requests being exactly the calls made, hold after every run |
| OwnerSwitch.DrainBeforeMount | src/main/agentera-connection-owner.ts:458-548 | between two installs, and between a missed drain and the next install, lies a stop call that succeeded inside its own transition |
| OwnerSwitch.DrainedBeforeInstall | src/main/agentera-connection-owner.ts:458-548 | the same on every well-formed history, whichever transition left a context or a missed drain behind |
| OwnerSwitch.BlockedFailsClosed | src/main/agentera-connection-owner.ts:458-548 | after a failed or timed-out drain, and until one succeeds, the coordinator is blocked or retrying and grants no lease |
| OwnerSwitch.MountedIsLast | src/main/agentera-connection-owner.ts:458-548 | a coordinator that is mounted after a missed drain has drained successfully in between |
| OwnerSwitch.InstallFollowsMissedDrain | src/main/agentera-connection-owner.ts:458-548 | a mounted owner was installed after the last missed drain |
| OwnerSwitch.LateSettlementChangesNothing | src/main/agentera-connection-owner.ts:478-521 | a cleanup promise that settles after its race was decided changes nothing but the set of outstanding cleanups |
| OwnerSwitch.LeaseSoundness | src/main/agentera-connection-owner.ts:617-650 | a lease is current exactly while no later epoch has begun, its signal is aborted exactly when one has, and a failed `assertCurrent` fails in every later state |
| OwnerSwitch.OwnerSwitchCoordinator.constructor | src/main/agentera-connection-owner.ts:401-420 | a new coordinator is unmounted at epoch 0 |
| OwnerSwitch.OwnerSwitchCoordinator.BeginTransition | src/main/agentera-connection-owner.ts:433-456 | the new epoch, the abort of the old controller, and whether a context has to be drained |
| OwnerSwitch.OwnerSwitchCoordinator.InstallOwner | src/main/agentera-connection-owner.ts:523-548 | the mounted owner, the fresh controller and the settled request |
| OwnerSwitch.OwnerSwitchCoordinator.FailTransition | src/main/agentera-connection-owner.ts:497-521 | fail-closed state with the error code of the missed drain |
| OwnerSwitch.OwnerSwitchCoordinator.StartTransition | src/main/agentera-connection-owner.ts:570-592 | the body up to its first await, no-op branch included |
| OwnerSwitch.OwnerSwitchCoordinator.TransitionTo | src/main/agentera-connection-owner.ts:550-615 | immediate no-op, immediate begin or queueing of one call |
| OwnerSwitch.OwnerSwitchCoordinator.RaceDecided | src/main/agentera-connection-owner.ts:478-548 | the continuation after the race of cleanup and timer |
| OwnerSwitch.OwnerSwitchCoordinator.CleanupPromiseSettles | src/main/agentera-connection-owner.ts:478-496 | a settling cleanup promise decides the race only while its transition still waits |
| OwnerSwitch.OwnerSwitchCoordinator.SettleTracked | src/main/agentera-connection-owner.ts:594-615 | the finally handler that lowers the pending count |
| OwnerSwitch.OwnerSwitchCoordinator.ContinueQueue | src/main/agentera-connection-owner.ts:594-615 | the queue's next step is that of the state machine, which starts or settles the first request (`QueueMovesOn`) |
| OwnerSwitch.OwnerSwitchCoordinator.Play | src/main/agentera-connection-owner.ts:401-656 | a whole run of the object is the run of the state machine |
| OwnerSwitch.OwnerSwitchCoordinator.AcquireLease | src/main/agentera-connection-owner.ts:617-631 | a lease is granted only when ready with an owner, else the error code of the state |
| OwnerSwitch.OwnerSwitchCoordinator.AssertCurrent | src/main/agentera-connection-owner.ts:632-647 | throws exactly for a lease that is no longer current, with the code of the state |
| ExecutionLease.GrantedWhenAcquired | src/main/agent-model-execution-lease.ts:124-130 | a lease just acquired from the coordinator is granted in its state |
| ExecutionLease.ScheduleFollows | src/main/agent-model-execution-lease.ts:124-242 | the awaits of a run only move the epoch forward and keep the lease granted |
| ExecutionLease.ResolveExact | src/main/agent-model-execution-lease.ts:132-159 | the legacy route stage passes exactly when the resolution is a non-legacy route of the same identity and the epoch has not moved |
| ExecutionLease.AvailableExact | src/main/agent-model-execution-lease.ts:161-172 | the availability stage passes exactly for an available route and an unmoved epoch, and is skipped locally |
| ExecutionLease.SourceExact | src/main/agent-model-execution-lease.ts:174-202 | the source stage passes exactly when the profile verifies, the route has not drifted and the epoch has not moved |
| ExecutionLease.InvokeExact | src/main/agent-model-execution-lease.ts:222-242 | the callback's value is returned exactly when it produced one and the epoch is still the lease's |
| ExecutionLease.ReturnsOnlyThroughGates | src/main/agent-model-execution-lease.ts:127-242 | the callback starts exactly when every gate is open at an unmoved epoch, with the effective route, and gets the secret only for a local route that has a credential |
| ExecutionLease.ReturnMeansNoTransition | src/main/agent-model-execution-lease.ts:127-242 | `run` returns a value exactly when all gates are open, the callback produced it, and no owner transition began between acquiring the owner lease and the end of the callback |
| ExecutionLease.AgentModelExecutionLease.Resolve | src/main/agent-model-execution-lease.ts:132-159 | the stage on the live coordinator is the specified one |
| ExecutionLease.AgentModelExecutionLease.Available | src/main/agent-model-execution-lease.ts:161-172 | the stage on the live coordinator is the specified one |
| ExecutionLease.AgentModelExecutionLease.Source | src/main/agent-model-execution-lease.ts:174-202 | the stage on the live coordinator is the specified one |
| ExecutionLease.AgentModelExecutionLease.RunCallback | src/main/agent-model-execution-lease.ts:127-242 | the whole `run` has the specified result, and its execution object survives it only with the credential cleared |
| DashboardPool.StepKeeps | src/main/dashboard.ts:698-1078 | every enabled step of starts, stops, shutdowns, deaths, exit events and status polls keeps the pool's invariant |
| DashboardPool.RunKeeps | src/main/dashboard.ts:698-1078 | the invariant holds after every interleaving |
| DashboardPool.StepEffects | src/main/dashboard.ts:772-1021 | only the port answer of a start that is not superseded spawns, one process for its own key; only a shutdown pass resolves a shutdown; only a stop that concludes with a late process forgets another one |
| DashboardPool.SpawnsAloneAndCurrent | src/main/dashboard.ts:772-890 | in every interleaving a start spawns only with its generation current, no stop in flight for its key and no owned process of that key alive but one a stop forgot |
| DashboardPool.AtMostOneLive | src/main/dashboard.ts:698-1031 | of two owned processes alive for one key, a stop forgot at least one |
| DashboardPool.LiveIsHeldOrForgotten | src/main/dashboard.ts:698-1031 | in every interleaving a live process is held by the map or by the stop that took it out, or a stop forgot it |
| DashboardPool.ForgottenExactly | src/main/dashboard.ts:1000-1021 | a step forgets a live process exactly if nothing holds it any more after the step |
| DashboardPool.LateBranchExactly | src/main/dashboard.ts:910-1010 | a stop enters the branch for a late process exactly if, while it was at work, the cleanup of an earlier start reported survivors of another process whose entry had gone, and that entry is still there |
| DashboardPool.LateRootIsDead | src/main/dashboard.ts:996-1010 | the root of a late process is dead, unless a stop forgot it before |
| DashboardRuns.LateProcessComes | src/main/dashboard.ts:904-1010 | a run that enters the branch: the root dies, its exit is handled, a stop begins, and only then the cleanup reports its descendants |
| DashboardRuns.LiveProcessLost | src/main/dashboard.ts:970-1021 | a run in which a stop that failed to terminate its process forgets it, alive, because the late one takes its place in the map |
| DashboardRuns.TwoLiveForOneKey | src/main/dashboard.ts:698-1021 | a longer run: the next stop ends what was put back, and the next start spawns a second live process of the same key beside the forgotten one |
| DashboardAnswers.SpawnsExactly | src/main/dashboard.ts:804-890 | in every run a port answer spawns exactly if the gateway was found healthy, or not and then recovered, no stop superseded the start at any of its answers, and the process could be created; nothing else spawns |
| DashboardAnswers.SpawnFollowsGateway | src/main/dashboard.ts:804-830 | every spawn of a start is preceded in the run by its own healthy probe, or by its unhealthy probe and, later, its recovery |
| DashboardAnswers.StartFollowsItsAnswers | src/main/dashboard.ts:772-967 | in every run each start is exactly where the answers it got lead, whatever the others do |
| DashboardAnswers.RunningExactly | src/main/dashboard.ts:804-967 | an answered start settles as running exactly if it came through the gate, spawned and became ready with no stop superseding it at any answer, and as not running exactly if its last answer refused it |
| DashboardAnswers.ReadinessDecides | src/main/dashboard.ts:904-967 | a launched start ends running exactly if it becomes ready while still current, and goes to cleanup otherwise |
| DashboardAnswers.StartMovesOn | src/main/dashboard.ts:752-967 | every awaited answer brings a start nearer to its end, so at most six awaits end it, with the answer it settled on |
| DashboardStops.StartAdmittedExactly | src/main/dashboard.ts:698-757 | a start takes the slot of its key exactly if the pool is open, no stop works on the key, no start holds the slot, no cleanup of it is on record as failed and nothing serves it; otherwise it waits for the stop, joins the slot's start or is answered at once |
| DashboardStops.ResumedExactly | src/main/dashboard.ts:712-757 | a start that waited for a stop is admitted like a new one exactly if the stop succeeded |
| DashboardStops.StopRemembersSurvivors | src/main/dashboard.ts:970-1021 | in every run a stop that has not answered knows exactly whether a termination it awaited left survivors |
| DashboardStops.StopAnswersExactly | src/main/dashboard.ts:970-1021 | a stop succeeds exactly if no termination it awaited left survivors |
| DashboardStops.StopReturnsExactly | src/main/dashboard.ts:1022-1068 | a stop that returns frees its key and tells every start and shutdown that waits for it whether it met survivors |
| DashboardStops.StopMovesOn | src/main/dashboard.ts:970-1031 | whatever a stop waits for next brings it nearer to its end, so at most four awaits end it |
| DashboardStops.FailuresExactly | src/main/dashboard.ts:910-1021 | a key is on record as failed after a step exactly if a stop or cleanup of it failed in the step, or it was and none succeeded; the process is then back in the map |
| DashboardStops.RetainedExactly | src/main/dashboard.ts:100-128 | a process can be terminated again exactly if it was last reported to survive with a handle |
| DashboardStops.PassStopsAll | src/main/dashboard.ts:1053-1068 | a round of a shutdown puts every key there is under a stop and waits for exactly the stops in flight |
| DashboardStops.ShutdownGoesOn | src/main/dashboard.ts:1053-1068 | a shutdown never hangs: it waits only for stops in flight, each of which can go on, and when none is left it fails exactly if a stop of the round met survivors, resolves exactly if no key is left, or begins another round |
| DashboardStops.PoolAdmitsExactly | src/main/dashboard.ts:1033-1078 | in every run the pool refuses starts exactly while a shutdown is under way, or for good once one was called that closes it |
| DashboardPool.NoKeysNothingLive | src/main/dashboard.ts:1044-1053 | when the three maps hold no key, no owned process is alive but what a stop forgot |
| DashboardPool.ShutdownResolvesEmpty | src/main/dashboard.ts:1033-1078 | the step with which a shutdown resolves leaves all maps empty and nothing alive but what a stop forgot |
| DashboardPool.StepStaysDown | src/main/dashboard.ts:698-1078 | from a closed pool with no start slot and nothing alive but what a stop forgot, no enabled step spawns anything or leaves that state |
| DashboardPool.PoolStaysDown | src/main/dashboard.ts:1033-1078 | after a pool-closing shutdown resolved, no continuation of starts or stops under way ever spawns again |
| DashboardModule.Dashboards.GetManagedDashboard | src/main/dashboard.ts:247-262 | drops an entry whose process is gone and returns the others |
| DashboardModule.Dashboards.GetDashboardStatus | src/main/dashboard.ts:625-662 | a status poll answers running exactly for an entry whose process is there and no cleanup failure on record, and drops a dead entry |
| DashboardModule.Dashboards.StartDashboard | src/main/dashboard.ts:698-745 | the synchronous part of a start: refused, answered, joining, waiting for a stop, or taking the start slot with the current generation |
| DashboardModule.Dashboards.StartAfterStop | src/main/dashboard.ts:722-760 | admission again after the awaited stop |
| DashboardModule.Dashboards.StartContinues | src/main/dashboard.ts:712-760 | a start woken by a stop goes on, or returns if the stop failed |
| DashboardModule.Dashboards.GatewayProbed | src/main/dashboard.ts:804-815 | an unhealthy gateway is recovered first, a healthy one leads to the port search, a superseded start ends |
| DashboardModule.Dashboards.GatewayRecovered | src/main/dashboard.ts:815-829 | the port search only after a recovery, while current |
| DashboardModule.Dashboards.PortFound | src/main/dashboard.ts:831-893 | the spawn point: a superseded start returns, another one publishes its process, for a key no stop is working on and with none of its processes alive but what a stop forgot |
| DashboardModule.Dashboards.ReadinessKnown | src/main/dashboard.ts:904-967 | an unready or superseded process goes to cleanup |
| DashboardModule.Dashboards.StartCleanupSettles | src/main/dashboard.ts:910-965 | after cleanup the entry is forgotten, or a tree with survivors is kept for a retry, back in the map if its entry had gone |
| DashboardModule.Dashboards.StartReleases | src/main/dashboard.ts:752-760 | the start slot is released only if it is still the start's own |
| DashboardModule.Dashboards.SupersedePendingStart | src/main/dashboard.ts:977-981 | a stop raises the generation and takes the start slot |
| DashboardModule.Dashboards.StopDashboard | src/main/dashboard.ts:970-1023 | a stop joins the one in flight or supersedes, detaches and begins terminating |
| DashboardModule.Dashboards.StopTerminationSettles | src/main/dashboard.ts:982-992 | the outcome of the first termination, whatever became of the root |
| DashboardModule.Dashboards.StopDrained | src/main/dashboard.ts:994-1004 | the continuation once the pending start has drained |
| DashboardModule.Dashboards.StopLateSettles | src/main/dashboard.ts:1003-1010 | the continuation after terminating a late process, with the process it lets go |
| DashboardModule.Dashboards.StopConcludes | src/main/dashboard.ts:1012-1021 | a failure restores ownership and is remembered, a success clears it |
| DashboardModule.Dashboards.WakeWaiters | src/main/dashboard.ts:716-735 | the starts that awaited a stop continue in order, with the stop's outcome |
| DashboardModule.Dashboards.StopReleases | src/main/dashboard.ts:1022-1031 | the stop leaves the in-flight map |
| DashboardModule.Dashboards.ShutdownPass | src/main/dashboard.ts:1045-1068 | one round of the fixed-point loop over all keys |
| DashboardModule.Dashboards.StopAllDashboards | src/main/dashboard.ts:1033-1068 | admission is closed before the first round, and a call that resolves at once leaves the maps empty and nothing alive but what a stop forgot |
| DashboardModule.Dashboards.ShutdownContinues | src/main/dashboard.ts:1053-1068 | the loop goes on, fails on a failed stop, or resolves with empty maps and nothing alive but what a stop forgot |
| DashboardModule.Dashboards.ShutdownReleases | src/main/dashboard.ts:1069-1078 | the shutdown is forgotten and admission reopened unless the pool is closed |
| DashboardModule.Dashboards.ProcessExitEmitted | src/main/dashboard.ts:894-903 | an exit event forgets exactly its own dead process |
| DashboardModule.Dashboards.Handle | src/main/dashboard.ts:698-1078 | the code behind any event keeps the module valid and makes exactly the step of the pool |
| DashboardModule.Dashboards.Play | src/main/dashboard.ts:698-1078 | a whole run of the module is the run of the pool, so the laws of every interleaving hold of the object |
| OwnershipFiles.PromotePendingKeeps | src/main/gateway-process-ownership.ts:863-905 | no outcome of the promotion loses the pending state, and a promotion that returns leaves no pending file |
| OwnershipFiles.PersistLeaves | src/main/gateway-process-ownership.ts:818-861 | from a durable disk, whatever fails, the disk holds the old or the new state in full; from any disk, the new one once `persist` returns, which `PersistReturnsExactly` says when it does |
| OwnershipFiles.PersistIsAtomic | src/main/gateway-process-ownership.ts:818-861 | on a durable disk, for every schedule of failing opens, writes, fsyncs, chmods, renames and unlinks and every crash point, a later start recovers exactly the old state or exactly the new one, and the new one once `persist` returned |
| OwnershipFiles.AtomicExactlyWhenDurable | src/main/gateway-process-ownership.ts:818-905 | of all disks, `persist` is atomic on exactly those whose readable pending file was fsynced, or, without a readable one, whose older file was, or has the same state behind it in one that was |
| OwnershipFiles.UnsyncedPendingLosesEverything | src/main/gateway-process-ownership.ts:863-905 | on every disk with a readable pending file that was not fsynced, some schedule and crash lose both states |
| OwnershipFiles.FailedSyncAndRemovalLeaveIt | src/main/gateway-process-ownership.ts:818-861 | such a disk arises when the fsync of a new file and its removal both fail |
| OwnershipFiles.PromotionLeavesUnsyncedCanonical | src/main/gateway-process-ownership.ts:818-905 | a save that finds one promotes it and can then fail, which leaves a canonical file that was not fsynced and no pending file |
| OwnershipFiles.ReadStateReads | src/main/gateway-process-ownership.ts:734-797 | on every disk, a cold start that is not cut short reads exactly the recoverable state |
| OwnershipFiles.ReadStatePreservesExactly | src/main/gateway-process-ownership.ts:734-797 | of all disks, a cold start, whatever fails in it, loses nothing on exactly the durable ones |
| OwnershipFiles.PersistDurableExactly | src/main/gateway-process-ownership.ts:818-861 | from a durable disk a save leaves a durable one exactly unless its bytes were written, not fsynced, and not removed again |
| OwnershipFiles.EpisodeDurableExactly | src/main/gateway-process-ownership.ts:734-861 | the same for any save, cold start or loss of power, as a condition on the schedule of failures |
| OwnershipFiles.LosesNothingExactlyWhenLucky | src/main/gateway-process-ownership.ts:734-861 | after an episode one more save and a loss of power can lose every state exactly if that condition failed |
| OwnershipFiles.LifetimeNeverLosesState | src/main/gateway-process-ownership.ts:734-861 | over any lifetime of saves, kills, losses of power and cold starts in which bytes stranded without fsync do not outlive the loss of power, the recoverable state is the last one whose save returned or one tried after it |
| OwnershipProgress.PromotionReturnsExactly | src/main/gateway-process-ownership.ts:863-905 | for every disk and schedule, exactly when a promotion returns and exactly when it is cut short |
| OwnershipProgress.PersistReturnsExactly | src/main/gateway-process-ownership.ts:818-861 | for every disk and schedule, a save returns exactly if the directory and the owed promotion work, every operation on the new file does, and nothing cuts the last promotion short; it reports a load issue exactly if that one threw |
| OwnershipProgress.FaultFreeSave | src/main/gateway-process-ownership.ts:818-861 | without faults a save returns, owing nothing, exactly if no unreadable pending file is in its way, and leaves the new state, fsynced, as the only file |
| OwnershipProgress.FaultFreeColdStart | src/main/gateway-process-ownership.ts:734-797 | without faults, what a cold start leaves on the disk and which issue it reports |
| GatewayProcessOwnership.OwnershipDirectory.PromotePending | src/main/gateway-process-ownership.ts:863-905 | the file steps of the promotion, in order, under any failure |
| GatewayProcessOwnership.OwnershipDirectory.Persist | src/main/gateway-process-ownership.ts:818-861 | the file steps of a save under any failure are the specified ones, so it returns exactly when `PersistReturnsExactly` says |
| GatewayProcessOwnership.OwnershipDirectory.RemoveBackupBestEffort | src/main/gateway-process-ownership.ts:907-914 | the backup goes if it can, and failure is ignored |
| GatewayProcessOwnership.OwnershipReader.Read | src/main/gateway-process-ownership.ts:734-797 | candidates are tried in order, and an older version is rewritten |
| GatewayProcessOwnership.GatewayProcessOwnershipLedger.ReplaceState | src/main/gateway-process-ownership.ts:813-816 | the field changes only after the save returned, which without faults it does |
| GatewayProcessOwnership.GatewayProcessOwnershipLedger.BeginLaunch | src/main/gateway-process-ownership.ts:327-356 | the record of a new launch, conflicts refused; without faults it returns exactly if the transition is allowed |
| GatewayProcessOwnership.GatewayProcessOwnershipLedger.MarkSpawned | src/main/gateway-process-ownership.ts:358-401 | the spawned identity goes into the launch's own record; without faults it returns exactly if the transition is allowed |
| GatewayProcessOwnership.GatewayProcessOwnershipLedger.BeginRestart | src/main/gateway-process-ownership.ts:403-432 | the restart record and the previous one handed back; without faults it returns exactly if the transition is allowed |
| GatewayProcessOwnership.GatewayProcessOwnershipLedger.RestoreRestart | src/main/gateway-process-ownership.ts:434-460 | the previous record comes back for that launch only; without faults it returns exactly if the transition is allowed |
| GatewayProcessOwnership.GatewayProcessOwnershipLedger.AdoptSpawnedPid | src/main/gateway-process-ownership.ts:462-507 | the listener is adopted for the launch's own record; without faults it returns exactly if the transition is allowed |
| GatewayProcessOwnership.GatewayProcessOwnershipLedger.ClearLaunch | src/main/gateway-process-ownership.ts:509-528 | the profile's record goes, for the named launch only; without faults it returns exactly if the transition is allowed |
| GatewayProcessOwnership.GatewayProcessOwnershipLedger.ReconcileColdStart | src/main/gateway-process-ownership.ts:563-732 | the loop over the records lists and removes exactly what the classification says |
| OwnershipLedger.ApplyKeepsUnique | src/main/gateway-process-ownership.ts:327-528 | every transition keeps one record per profile |
| OwnershipLedger.ForeignRecordsStay | src/main/gateway-process-ownership.ts:327-528 | records of another desktop instance leave only by an explicit clear |
| OwnershipLedger.AdvancingTouchesOneRecord | src/main/gateway-process-ownership.ts:358-401 | the steps of a launch change its own record only and keep its launch and instance |
| OwnershipLedger.RestoreUndoesRestart | src/main/gateway-process-ownership.ts:403-460 | however far a restart's launch got, restoring gives back exactly the ledger before it |
| OwnershipLedger.TransitionIsLocal | src/main/gateway-process-ownership.ts:327-528 | a transition is refused by the record of its own profile alone, exactly for the reasons listed, and touches no other profile's |
| OwnershipLedger.LaunchIsRecorded | src/main/gateway-process-ownership.ts:327-356 | a new launch is recorded for this instance with the process it found running and no evidence of its own |
| OwnershipLedger.ClearedExactly | src/main/gateway-process-ownership.ts:509-528 | clearing takes the profile's record out unless another launch is named |
| OwnershipLedger.RestartIsRecorded | src/main/gateway-process-ownership.ts:403-432 | a restart is recorded as a launch of its own that has spawned nothing, its listener still known |
| OwnershipLedger.SpawnedIsOwnedExactly | src/main/gateway-process-ownership.ts:358-401 | before a listener was adopted, a later cold start owns the profile exactly if the spawned process is there with the evidence it was recorded with |
| OwnershipLedger.AdoptedIsOwnedExactly | src/main/gateway-process-ownership.ts:462-507 | after its listener was adopted, exactly if the listener is there with the adopted identity and image |
| OwnershipLedger.OwnedExactly | src/main/gateway-process-ownership.ts:563-732 | owned means recorded evidence and a live `gateway.pid` PID that is the recorded listener, or the spawned PID without one, with matching fresh identity and image |
| OwnershipLedger.RemovedExactly | src/main/gateway-process-ownership.ts:563-732 | removed means evidence, a spent marker, and every recorded PID dead but for a live pre-launch one |
| OwnershipLedger.ListedExactly | src/main/gateway-process-ownership.ts:563-732 | the result lists hold exactly the foreign profiles of each class |
| OwnershipLedger.ReconciliationPartitions | src/main/gateway-process-ownership.ts:563-732 | owned, ambiguous and removed partition the foreign records; own records stay unlisted; a record without evidence is ambiguous |
| ProfileBindings.StepAccepted | src/main/agentera-profile-binding.ts:669-1127 | every operation, with a generated id that misses pending reservations, maps a state `readState` accepts to another |
| ProfileBindings.RunAccepted | src/main/agentera-profile-binding.ts:669-1127 | so does any interleaving of operations, failed writes and crashes |
| ProfileBindings.BindExistingAcceptedExactly | src/main/agentera-profile-binding.ts:669-706 | binding an existing Profile keeps the state acceptable exactly if the generated runtime id is not reserved for another owner |
| ProfileBindings.ReservationLifecycle | src/main/agentera-profile-binding.ts:791-996 | a reservation keeps all its identities until it disappears, which it does only in a step whose state binds its runtime id to its owner |
| ProfileBindings.ReservationFixedWhileItExists | src/main/agentera-profile-binding.ts:708-996 | across awaits, failed writes, crashes and retries a reservation whose operation id is still stored is the very same record |
| ProfileBindings.ReservedRuntimeIsUnambiguous | src/main/agentera-profile-binding.ts:791-996 | at most one binding carries a reserved runtime id, and it has the reservation's owner |
| ProfileBindings.BoundPathKeepsIdentity | src/main/agentera-profile-binding.ts:669-1127 | a bound path keeps its owner and runtime id until its own removal |
| ProfileBindings.RetryFindsItsBinding | src/main/agentera-profile-binding.ts:848-996 | repeating a call that crashed after its binding was written finds that binding, changes nothing and can spend the reservation |
| ProfileBindings.ReconcileBindsReservedIdentity | src/main/agentera-profile-binding.ts:848-996 | whatever runs during the await on `createProfile`, a reconciliation that returns has bound the path it reports to the reserved identities |
| BindingAnswers.BindExistingExactly | src/main/agentera-profile-binding.ts:669-706 | a valid owner is refused for a path exactly if another one has it; otherwise the path is bound to the caller, freshly if it was free, and every other binding and every reservation stays |
| BindingAnswers.RemoveUndoesBind | src/main/agentera-profile-binding.ts:669-1127 | removing what a call bound gives back the bindings before it |
| BindingAnswers.ReserveExactly | src/main/agentera-profile-binding.ts:708-771 | a valid request is refused exactly if its operation is on record with something else or its Profile under another; otherwise the operation is on record with what was asked for and nothing else changes |
| BindingAnswers.CompleteExactly | src/main/agentera-profile-binding.ts:791-820 | exactly the named reservation goes, refused exactly if it is another owner's or runtime's or its runtime is not bound to the owner |
| BindingAnswers.AttachExactly | src/main/agentera-profile-binding.ts:1050-1090 | the installation goes to the owner's binding of the path and to nothing else, refused exactly for the reasons listed |
| BindingAnswers.RemoveExactly | src/main/agentera-profile-binding.ts:1092-1127 | exactly the named binding goes, refused exactly if it is not as expected |
| BindingAnswers.BindReservedExactly | src/main/agentera-profile-binding.ts:888-935 | the bind under reserved identities works exactly if the reservation is the owner's and the path free for it or already bound to it |
| BindingAnswers.ReconcileReturnsExactly | src/main/agentera-profile-binding.ts:848-996 | whatever runs during its await, a reconciliation returns exactly if the operation is reserved for the valid owner before and after it, the Profile is there or made and holds nothing private, the path can be bound to it, and the writes and the activation it needs work; it then has bound the path it reports and spent the reservation exactly if it activates, and a failed one leaves every reservation |
| ProfileBindings.AgenteraProfileBindingStore.BindExistingProfile | src/main/agentera-profile-binding.ts:669-706 | the new state is that of the operation, whose answers `BindExistingExactly` states; a call that succeeds returns the binding that is now at the path |
| ProfileBindings.AgenteraProfileBindingStore.ReserveFreshProfile | src/main/agentera-profile-binding.ts:708-771 | the new state is that of the operation, whose answers `ReserveExactly` states; a call that succeeds returns the reservation on record |
| ProfileBindings.AgenteraProfileBindingStore.CompleteFreshProfileReservation | src/main/agentera-profile-binding.ts:791-820 | the new state is that of the operation; a call that succeeds says whether there was a reservation |
| ProfileBindings.AgenteraProfileBindingStore.AttachAgentInstallation | src/main/agentera-profile-binding.ts:1050-1090 | the new state is that of the operation; a call that succeeds returns the binding with the installation |
| ProfileBindings.AgenteraProfileBindingStore.RemoveProfileBinding | src/main/agentera-profile-binding.ts:1092-1127 | the new state is that of the operation; a call that succeeds says whether there was a binding |
| ProfileBindings.AgenteraProfileBindingStore.BindAfterAwait | src/main/agentera-profile-binding.ts:888-996 | the part after the await rereads the state and binds, or refuses |
| ProfileBindings.AgenteraProfileBindingStore.ReconcileFreshProfile | src/main/agentera-profile-binding.ts:848-996 | the whole reconciliation, with other calls running during the await |
| ManagedBlock.CountOccurrences | src/main/agent-identity.ts:722-731 | the loop counts every place at which a marker stands |
| ManagedBlock.UpdateManagedIdentityBlock | src/main/agent-identity.ts:699-720 | the method's answer is the specified update, errors included |
| ManagedBlock.RestoreSoulSnapshot | src/main/agent-identity.ts:652-663 | the method's answer is the specified restored text, errors included |
| ManagedBlock.UpdateAcceptedExactly | src/main/agent-identity.ts:699-720 | the update succeeds exactly for texts without markers or with one pair in order |
| ManagedBlock.UpdateReplacesThePair | src/main/agent-identity.ts:713-720 | replacing keeps every character before and after the pair and leaves exactly one pair |
| ManagedBlock.UpdateInsertsOnePair | src/main/agent-identity.ts:707-711 | a text without markers gets one pair in front and keeps itself from its first visible character on |
| ManagedBlock.UpdateTwiceIsOnce | src/main/agent-identity.ts:686-720 | updating twice is updating once with the second name and revision |
| ManagedBlock.RestoreKeepsTheRest | src/main/agent-identity.ts:652-663 | restoring gives back an unmarked text exactly and changes only the block of a marked one |
| FileTransactions.CompensationRestoresTheDisk | src/main/agent-identity.ts:378-410 | with no failing restore, a transaction that fails anywhere, whatever the failing write left behind, leaves the whole disk as it was; it commits exactly when no write fails |
| FileTransactions.FailedRestoresDamageTheirOwnFile | src/main/agent-identity.ts:378-410 | each listed file whose restore works equals its snapshot, each other one is what its failed restore left, and unlisted files are untouched |
| FileTransactions.CommitWritesTheList | src/main/agent-identity.ts:378-385 | a commit has written exactly the listed contents and nothing else |
| AgentIdentityServices.AgentIdentityService.WriteTransaction | src/main/agent-identity.ts:378-410 | both loops together perform the specified transaction |
| AgentIdentity.NormalizeDisplayName | src/main/agent-identity.ts:413-427 | an accepted name is not empty and holds no comment delimiter |
| AgentIdentity.NormalizedNamesAreFixed | src/main/agent-identity.ts:413-427 | normalizing a normalized name changes nothing |
| AgentIdentityServices.AgentIdentityService.SetDisplayName | src/main/agent-identity.ts:102-169 | a rename succeeds exactly if its checks pass and its writes work; the metadata then has the answered name and every other field as before, and SOUL one block that states the answered name and revision |
| AgentIdentityServices.AgentIdentityService.UndoDisplayName | src/main/agent-identity.ts:171-250 | the checks in order and the transaction of an undo, as specified |
| AgentIdentityServices.AgentIdentityService.RollbackUncommittedDisplayName | src/main/agent-identity.ts:252-296 | the accepted backup's files come back and the backup goes, in one transaction |
| AgentIdentityServices.AgentIdentityService.RecordSessionRevision | src/main/agent-identity.ts:334-362 | one write of the identity state with the session recorded |
| IdentityHistory.CarriedIsChange | src/main/agent-identity.ts:102-250 | a rename or undo takes effect as one change with a fresh backup and the next revision, or, restores permitting, not at all |
| IdentityHistory.StepKeepsAligned | src/main/agent-identity.ts:102-362 | every operation, refused and cleanly failed ones included, keeps backups distinct, at most as new as the state and one revision after what they hold |
| IdentityHistory.RunKeepsAligned | src/main/agent-identity.ts:102-362 | so does every run of renames, undos, rollbacks and session records in any order |
| IdentityHistory.OnlyTheNewestIsAccepted | src/main/agent-identity.ts:193-198 | at any time at most one backup can be undone or rolled back, the one with the highest revision |
| IdentityHistory.RollingBackRestoresTheStart | src/main/agent-identity.ts:102-362 | any run of successful renames and undos with session records in between, rolled back newest first, ends on the very disk the first change found, with no backup of the run left |
| IdentityHistory.ChangeMakesSessionsStale | src/main/agent-identity.ts:298-318 | after a change no earlier session is resumed until it is recorded again |
| IdentityHistory.UndoOfRename | src/main/agent-identity.ts:171-250 | undoing a rename brings the metadata back exactly, restores the old name, renews at most SOUL's block and moves the revision on |
| IdentityChanges.BlockStates | src/main/agent-identity.ts:686-697 | a block read back states exactly the name and the revision it was made for |
| IdentityChanges.UpdateRewrites | src/main/agent-identity.ts:699-720 | an updated text has exactly one block, which states the name and the revision, and keeps what was outside |
| IdentityChanges.RenameWorksExactly | src/main/agent-identity.ts:102-169 | a rename works exactly if its checks pass and its writes work; a failed one says whether the files were put back, and a clean one changes nothing |
| IdentityChanges.RenameWrites | src/main/agent-identity.ts:102-169 | after a rename that works the metadata has the normalized name and every other field as before, the identity state that name, the next revision, the clock's time and the sessions as before, SOUL exactly one block that states name and revision with the text outside kept, and the answer names all three |
| IdentityChanges.UndoWorksExactly | src/main/agent-identity.ts:171-250 | the same for an undo, which answers the restored name, the next revision and the time |
| IdentityChanges.UndoRestoresTheNameBefore | src/main/agent-identity.ts:102-250 | undoing the second of two renames answers the first one's name, gives its metadata back and a SOUL that states it |
| IdentityChanges.RenameCanBeUndone | src/main/agent-identity.ts:102-250 | a rename that worked can be undone exactly if its revision is a safe number, the name before it can be read and SOUL's old text brought back, given a time, a fresh operation id and writes that work |
| IdentityChanges.RollbackWorksExactly | src/main/agent-identity.ts:252-296 | a rollback works exactly for the latest change of the profile, if its writes do, and brings all three files back |
| IdentityChanges.RecordExactly | src/main/agent-identity.ts:334-362 | a session record works exactly for a valid session, a readable state, a time and a write that works; it marks the session with the current revision, drops what pruning drops and changes nothing else |
| IdentityChanges.RecordResumes | src/main/agent-identity.ts:298-362 | a recorded session is the one to resume, and what else is kept is resumed as before |
| IdentityHistory.LastRevisionLocksTheIdentity | src/main/agent-identity.ts:102-169 | a successful rename leaves an unreadable identity state exactly at the last safe revision, and then no backup is accepted |
| AgentSync.BuildPushBody | src/main/agent-sync.ts:128-160 | the body holds exactly the unskipped parts and the skipped list exactly the others |
| AgentSync.PatchedParts | src/main/agent-sync.ts:128-160 | an accepted body makes exactly the pushed, unskipped parts equal on both sides |
| AgentSync.Classify | src/main/agent-sync.ts:543-555 | the loop sorts the parts by their action |
| AgentSync.RecordBase | src/main/agent-sync.ts:585-595 | the loop records the new base part by part |
| AgentSync.AgentLink.PullParts | src/main/agent-sync.ts:326-377 | pulls are applied in order; a color that is no six-digit hex, a failed write of color or persona and a missing model are passed over in silence; only a model configuration throws, and may then have been written |
| AgentSync.AgentLink.ReconcileParts | src/main/agent-sync.ts:532-602 | a pass over one pair changes local files, agent and base as specified: it decides on and pushes what it read, failed reads included, and pulls onto what is on disk, lost pulls included |
| AgentSyncLaws.RemoteAfter | src/main/agent-sync.ts:563-580 | after a pass the cloud side of a part is what the pass read locally exactly if its push took effect, and what it was otherwise |
| AgentSyncLaws.LocalAfter | src/main/agent-sync.ts:326-377 | after a pass the local side of a part is the cloud value exactly if its pull was applied, and what it was otherwise |
| AgentSyncLaws.BaseAfter | src/main/agent-sync.ts:585-602 | the base of a part moves only in a completed pass, to what the pass pulled, pushed or found equal |
| AgentSyncLaws.ConvergesExactly | src/main/agent-sync.ts:532-602 | whatever a pass meets and reads, both sides are equal after it exactly if each part was pulled, or pushed as it is on disk, or neither and equal before; of parts read as they are, if every push and pull took effect |
| AgentSyncLaws.TheEditedSideWins | src/main/agent-sync.ts:106-120 | a one-sided edit, or of two edits the later one, ends on both sides exactly if it was the pulled one, or read as it is and pushed, or there already; of a part read as it is, exactly if its push or pull took effect, and a completed pass then records it |
| AgentSyncLaws.QuietExactly | src/main/agent-sync.ts:532-602 | of all pairs, passes that read every file change nothing on exactly those whose parts are equal and recorded, or cannot be pushed and differ from a recorded cloud value |
| AgentSyncLaws.SecondPassDoesNothing | src/main/agent-sync.ts:532-602 | after a completed pass, whatever it read, no later one that reads every file changes anything, exactly if the pass left each part equal on both sides and recorded, or different in a way that can neither be pushed nor pulled |
| AgentSyncLaws.FailedReadDisturbs | src/main/agent-sync.ts:245-580 | no pair is safe from a pass that cannot read the metadata: the default color can go to the cloud |
| AgentSyncLaws.UnpushedStaysPending | src/main/agent-sync.ts:585-595 | a push that was skipped, refused, or threw without having been applied leaves its part as it was on both sides, and in the base unless that could not be read, so that a local edit is still to be pushed |
| AgentSyncLaws.ColorIsPulledExactly | src/main/agent-sync.ts:326-335 | a color pull is applied exactly if the cloud's color spells six hexadecimal digits in either case and the write works, and is lost otherwise |
| AgentSyncRuns.LocalEditSurvivesEveryRun | src/main/agent-sync.ts:532-623 | no run of passes that read the part, however else they fail, loses a local one-sided edit |
| AgentSyncRuns.LocalSafeExactly | src/main/agent-sync.ts:106-120 | a local value that the cloud could overwrite is safe from every pass that reads it exactly if the cloud has it too or has the recorded base |
| AgentSyncRuns.LocalEditSurvivesExactly | src/main/agent-sync.ts:245-623 | whatever the passes of a run meet and read, a local one-sided edit stays safe throughout exactly if none pulls over it, or pushes a misread value without recording it, or writes back an unreadable sync state over a difference |
| AgentSyncRuns.RemoteSafeExactly | src/main/agent-sync.ts:106-120 | the same for a cloud value and passes that could push over it |
| AgentSyncRuns.UneditedSurvivesExactly | src/main/agent-sync.ts:245-623 | a value both sides hold stays with both through a run exactly if no pass pushes a misread one |
| AgentSyncRuns.FailedReadErasesPersona | src/main/agent-sync.ts:245-623 | one failed read of the persona, whose push is applied but not answered, and one clean pass erase it on both sides, edited or not |
| AgentSyncRuns.FailedReadOverwritesCloudEdit | src/main/agent-sync.ts:245-580 | one failed read of the persona lets an accepted push overwrite a cloud edit, without any lost pull |
| AgentSyncRuns.RemoteEditSurvivesEveryRun | src/main/agent-sync.ts:326-623 | nor a cloud one-sided edit, if it can be applied and the passes read its part and do not fail to write it |
| AgentSyncRuns.RemoteEditSurvivesExactly | src/main/agent-sync.ts:326-623 | whatever the passes of a run meet and read, a cloud one-sided edit stays safe throughout exactly if none pushes over it, or records it as common ground although it was misread as equal or its pull was lost, or writes back an unreadable sync state over a difference |
| AgentSyncRuns.UnappliableEditIsLost | src/main/agent-sync.ts:331-343 | a color that is no six-digit hex or an emptied model stays safe exactly as long as no pass pushes over it and none completes that has it to pull or could not read the base |
| AgentSyncRuns.ReadingHoldsOffExactly | src/main/agent-sync.ts:331-343 | of the passes that read the part, the ones that keep such an edit safe are those that do not complete |
| AgentSyncRuns.LosesByPullOnly | src/main/agent-sync.ts:331-343 | of the passes that read the part, the ones that lose a cloud edit are those that complete although its pull was lost |
| AgentSyncRuns.LostPullIsPushedBack | src/main/agent-sync.ts:326-600 | after a lost pull the local side keeps the old value unless a later pass endangers it, every later pass that reads it tries to push it, and the cloud edit stands until the first push that takes effect |
| AgentSyncRuns.EmptiedModelIsPushedBack | src/main/agent-sync.ts:339-340 | a model emptied in the cloud is recorded as common ground without being applied, and the next pass pushes the old one back |
| AgentLinking.ResolveLinks | src/main/agent-sync.ts:458-508 | each profile's stored link has one meaning and exactly the linked agents are claimed |
| AgentLinking.LinkByName | src/main/agent-sync.ts:510-530 | a never-synced profile takes an unclaimed agent of its exact name, stored links stay, and a named agent is linked once |
| AgentLinking.CreatedAreUnclaimed | src/main/agent-sync.ts:674-678 | cloud-only agents are exactly the unclaimed ones |
| AgentLinking.PlanPass | src/main/agent-sync.ts:449-530 | links of another account are never followed, every agent is either linked or created locally, and no profile and agent of one name are both left over |
| AgentSyncPass.SyncLinked | src/main/agent-sync.ts:532-600 | the loop over the linked pairs, each against the agents fetched before the first |
| AgentSyncPass.ProfilesAfter | src/main/agent-sync.ts:532-600 | a pass does to each profile what reconciling its own pair does, shared agents included |
| AgentSyncPass.LastPushWins | src/main/agent-sync.ts:563-580 | of several profiles linked to one agent, the cloud holds what the last pair whose push took effect had read, part by part |
| AgentSyncPass.AloneIsReconciled | src/main/agent-sync.ts:532-600 | a profile alone on its agent is reconciled as if there were no other pair |
| AgentSyncPass.SharedPushSurvivesExactly | src/main/agent-sync.ts:532-600 | on a shared agent a push that took effect is still there exactly if the last one has the same value; otherwise it is on record as common ground and the next pass that reads the part pulls the other value over it |
| DuplicateModels.CountTopLevelKeyLines | src/main/config-model-migration.ts:169-176 | the loop counts the lines that open the key at column 0 |
| DuplicateModels.OpensPopulatedMapping | src/main/config-model-migration.ts:179-189 | nothing on the line and indented content under it |
| DuplicateModels.ChooseModelLine | src/main/config-model-migration.ts:211-219 | the first populated mapping, else the first valued line, else the first |
| DuplicateModels.CopyLines | src/main/config-model-migration.ts:221-260 | the loop with its flag copies exactly the surviving lines |
| DuplicateModels.RemoveDuplicateModelKeys | src/main/config-model-migration.ts:204-263 | the repaired text is the chosen selection of lines |
| DuplicateModelLaws.OneModelLineIsLeft | src/main/config-model-migration.ts:191-263 | a document with a model line is left with exactly one, as read again |
| DuplicateModelLaws.SingleModelIsUntouched | src/main/config-model-migration.ts:191-263 | a document with at most one comes back unchanged |
| DuplicateModelLaws.RepairIsIdempotent | src/main/config-model-migration.ts:191-263 | repairing twice is repairing once |
| DuplicateModelLaws.OutputIsSubsequence | src/main/config-model-migration.ts:221-263 | the output is the subsequence of exactly the surviving lines |
| DuplicateModelLaws.SectionsStayWhole | src/main/config-model-migration.ts:221-263 | every other section and the kept one keep header and lines, together and in order |
| DuplicateModelLaws.KeptModelStaysPopulated | src/main/config-model-migration.ts:191-219 | if any model section is a populated mapping, the one left is, with its own content right under it |
| DuplicateModelLaws.ChildrenGoExactly | src/main/config-model-migration.ts:221-255 | in every document the lines under a dropped model line go with it or all stay behind the lines before it; they stay exactly if whitespace and a further character follow the colon with no line terminator from the value on, which a bare line meets with two whitespace characters of which the last is no terminator |
| ConfigBlocks.ReadTopLevelBlock | src/main/config.ts:866-932 | the cursor loop reads the children, the body's start and the indent of the line-by-line reader |
| ConfigBlocks.UpsertBlockChild | src/main/config.ts:1060-1101 | the spliced, inserted or appended text |
| ConfigBlocks.RemoveBlockChild | src/main/config.ts:1109-1124 | the text without the child's line |
| ConfigBlockLaws.SplicedMatches | src/main/config.ts:886-888 | a child line with another value written in is the same child with that value |
| ConfigBlockLaws.UpsertExisting | src/main/config.ts:1080-1086 | replacing a value changes what is read for that key and nothing else |
| ConfigBlockLaws.UpsertNew | src/main/config.ts:1088-1095 | an inserted child is read, and every other child as before |
| ConfigBlockLaws.ReadAfterUpsertExactly | src/main/config.ts:1060-1101 | reading after a quoted upsert gives the old children with the new value exactly if the value has no comment sign and no line feed and the document did not, lacking the block, end in its bare header |
| ConfigBlockLaws.ReadAfterPlainUpsertExactly | src/main/config.ts:1060-1101 | an unquoted value reads back as itself exactly if the reader would not strip it |
| ConfigBlockLaws.RemoveUndoesUpsert | src/main/config.ts:1109-1124 | removing a key that an upsert added to an existing block gives back the very document |
| ConfigRemoveLaws.RemovalCutsLine | src/main/config.ts:1109-1124 | removal by the recorded offsets takes out exactly the line the key was read from |
| ConfigRemoveLaws.ReadAfterRemove | src/main/config.ts:866-1124 | after removing a key that was there, the block reads as before without it, or with the next line of the same key; unless its line was the first child and the next child has another indent, whose children are then read |
| McpScalars.ParseYamlScalar | src/main/mcp-servers.ts:241-265 | the loop and its branches compute the specified scalar |
| McpScalars.ParseInlineList | src/main/mcp-servers.ts:267-304 | the loop and its flags compute the specified list |
| McpScalars.ScalarRoundTrip | src/main/mcp-servers.ts:237-265 | every string comes back from its quoted form |
| McpInput.InlineListIsRead | src/main/mcp-servers.ts:267-304 | an inline list of quoted and bare items is read as their trimmed texts without the empty ones |
| McpInput.InlineListComesBack | src/main/mcp-servers.ts:267-304 | its texts come back exactly if none is empty or has blanks around it |
| McpInput.ValidatedExactly | src/main/mcp-servers.ts:458-520 | an input is accepted exactly if its trimmed name is a server name and it has what its transport needs; what is accepted has the trimmed strings, the non-empty arguments and, for each variable, the last value given |
| McpConfig.FindBlock | src/main/mcp-servers.ts:306-328 | the section's bounds |
| McpConfig.GroupServers | src/main/mcp-servers.ts:330-366 | the loop groups the section's lines into servers with their offsets |
| McpConfig.ParseServerBlock | src/main/mcp-servers.ts:395-456 | the loop with its nested item loops computes the server's fields |
| McpEdits.RenderServerBlock | src/main/mcp-servers.ts:522-543 | the rendered lines |
| McpEdits.UpsertMcpServerInConfig | src/main/mcp-servers.ts:545-588 | the rewritten document |
| McpEdits.RemoveMcpServerFromConfig | src/main/mcp-servers.ts:590-620 | the document without the server |
| McpLaws.RenderedIsRead | src/main/mcp-servers.ts:395-543 | reading a server's rendered lines gives exactly its fields |
| McpLaws.GroupsComeBack | src/main/mcp-servers.ts:330-366 | servers written one after another are grouped as those servers |
| McpRejoin.JoinedAreReread | src/main/mcp-servers.ts:306-588 | splitting joined lines again takes one trailing return from every line but the last |
| McpRejoin.SteadyExactly | src/main/mcp-servers.ts:306-456 | the servers of a section read as before without those returns exactly if no server appears in front of them and each one, read by itself, is the same |
| McpRejoin.BlocksSteadyExactly | src/main/mcp-servers.ts:330-456 | the same for a section written server by server |
| McpUpsertLaws.ValidatedIsProper | src/main/mcp-servers.ts:458-520 | what validation accepts without line terminators is what the round trip covers |
| McpUpsertLaws.UpsertIntoSection | src/main/mcp-servers.ts:564-588 | writing into an existing section replaces or adds that one server |
| McpUpsertLaws.UpsertWithoutSection | src/main/mcp-servers.ts:553-562 | without a section one is appended, with the one server |
| McpUpsertLaws.ReadAfterUpsert | src/main/mcp-servers.ts:368-588 | over every document: after an upsert it reads as before with that server replaced in place or added at the end, all its fields as given, the others and their order unchanged, exactly if the lines of the other servers read alike without the returns that joining takes from their ends |
| McpUpsertLaws.CleanDocumentReadsAlike | src/main/mcp-servers.ts:368-588 | a document without a carriage return at the end of a split line meets that condition |
| McpUpsertLaws.StrayReturnChangesServer | src/main/mcp-servers.ts:408-588 | a document on which writing any other server changes what is read of the first one |
| McpRemoveLaws.FieldsIgnoreExtraEmpty | src/main/mcp-servers.ts:395-456 | a second blank line in a row tells a server's reader nothing |
| McpRemoveLaws.CollapseReadsTheSame | src/main/mcp-servers.ts:619 | collapsing runs of line feeds anywhere changes nothing a reader sees |
| McpRemoveLaws.ReadAfterRemoveExactly | src/main/mcp-servers.ts:590-620 | over every document: after a removal it reads as before without that server, exactly if there was nothing to remove, or the section went with it and no later section of the same header has servers, or the lines of the remaining servers read alike once joined |
| McpEnable.SetMcpServerEnabledInConfig | src/main/mcp-servers.ts:622-649 | the edit at the recorded offsets is the edit of the first server of the name |
| McpEnableLaws.ReadAfterEnable | src/main/mcp-servers.ts:622-649 | over every document: only the enabled flag of the first server of the name changes, to the new flag or to what a later enabled line of that server says, exactly if the other lines of the section as they stand, and the switched server as it is written, read alike once joined |

## Left out

- Electron, IPC, sockets, HTTP, SSH and child-process details: their outcomes are
  parameters of the steps.
- Encryption, JSON encoding, hashing and identifier generation: lossless typed
  values, collision-free hashes and identifiers as parameters.
- Real time: timeouts are choices.
- Remote and SSH branches of `dashboard.ts`; of the status a start returns, the
  connection, log path, error text and warnings.
- Formats of ledger fields (UUIDs, timestamps, image paths and their
  normalization), the sorting of the result lists of `reconcileColdStart`, and
  directory fsyncs.
- Migration of version 1 and 2 binding files, path canonicalization and the
  private-data scan of a Profile directory: their answers are parameters.
- AgentIdentity.NormalizeDisplayName: takes the text after Unicode compatibility
  normalization, which is not modelled.
- AgentIdentity.RecordSession: which 500 sessions survive pruning is a parameter.
- Profile name checks and path resolution of the identity service: the model is
  one profile's directory; `scopeConversationKey` is one branch on the revision.
- A file at an identity path that holds a JSON object of another kind counts as
  corrupt.
- AgentSync.AgentLink.ReconcileParts: the creation of cloud agents and local
  profiles after linking, warnings and outcome lists are not modelled.
- AgentLinking.PlanPass: agents are listed with distinct ids; account tokens and
  failed listings end a pass before it.
- DashboardPool.NoKeysNothingLive: says nothing of descendants that outlive their
  root; the exit event of a root forgets its entry whether or not it has any.
- OwnershipFiles.LifetimeNeverLosesState: for schedules in which no stranded bytes
  outlive their episode; `LosesNothingExactlyWhenLucky` shows that each other one
  can lose everything.
- AgentSyncRuns.LocalEditSurvivesEveryRun: for passes that read the part and the
  sync state; the claim for every pass was false, and `LocalEditSurvivesExactly` has
  the exact condition.
- AgentSyncRuns.RemoteEditSurvivesEveryRun: for cloud edits that can be applied and
  passes that read and write their part; `RemoteEditSurvivesExactly` has the exact
  condition.
- AgentSyncLaws.SecondPassDoesNothing: for later passes that read every file;
  `FailedReadDisturbs` shows that no pair is quiet under the others.
- The `yaml` library and everything that edits through it, the mutation port and
  write plans around the config editors, `.env` files, and config diagnostics.
- An MCP environment variable named `__proto__`.
