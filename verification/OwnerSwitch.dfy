/**
 * The owner switch coordinator: a promise queue that serializes owner
 * transitions, an epoch that every transition advances, and leases that are
 * valid for one epoch. Every await of the program is a step boundary.
 */
module OwnerSwitch {
  import opened Wrappers

  type OwnerId = string

  datatype Mount = Ready | Transitioning | Blocked | Unmounted

  datatype BlockCode = TransitionTimeout | TransitionFailed

  /** How the race between the cleanup promise and the timer ended. */
  datatype Drain = Drained | DrainTimedOut | DrainFailed

  /** One transitionTo call that was admitted; ids are handed out in call order. */
  datatype Request = Request(id: nat, owner: Option<OwnerId>)

  datatype Outcome =
    | Resolved(epoch: nat, mount: Mount)
    | Rejected(code: BlockCode)

  datatype Completion = Completion(request: Request, drain: Drain, outcome: Outcome)

  /** The transition body that currently holds the queue. */
  datatype Body =
    | NoBody
    | AwaitingDrain(request: Request, epoch: nat)
    | BodySettled(request: Request)

  datatype LogEntry =
    | Began(epoch: nat)
    | StopCalled(epoch: nat)
    | StopSucceeded(epoch: nat)
    | StopMissed(epoch: nat)
    | Installed(epoch: nat, owner: Option<OwnerId>)

  datatype Lease = Lease(epoch: nat, controller: nat)

  datatype LeaseError = OwnerChanged | InProgress | BlockedBy(code: BlockCode)

  datatype Coordinator = Coordinator(
    activeOwnerId: Option<OwnerId>,
    epoch: nat,
    state: Mount,
    blockedErrorCode: Option<BlockCode>,
    activeController: nat,
    controllers: nat,
    aborted: set<nat>,
    pendingTransitions: nat,
    queue: seq<Request>,
    body: Body,
    cleanups: set<nat>,
    calls: nat,
    done: seq<Completion>,
    log: seq<LogEntry>)

  const Initial: Coordinator :=
    Coordinator(None, 0, Unmounted, None, 0, 1, {}, 0, [], NoBody, {}, 0, [], [])

  // ---------------------------------------------------------------------
  // One synchronous segment of the program per function
  // ---------------------------------------------------------------------

  predicate IsNoop(state: Mount, active: Option<OwnerId>, requested: Option<OwnerId>) {
    (state == Ready && active == requested) || (state == Unmounted && requested.None?)
  }

  function CurrentOutcome(c: Coordinator): Outcome {
    Resolved(c.epoch, if c.state == Ready then Ready else Unmounted)
  }

  function Begin(c: Coordinator): Coordinator {
    c.(epoch := c.epoch + 1,
       state := Transitioning,
       blockedErrorCode := None,
       aborted := c.aborted + {c.activeController},
       activeController := c.controllers,
       controllers := c.controllers + 1,
       log := c.log + [Began(c.epoch + 1)])
  }

  function Install(c: Coordinator, r: Request): Coordinator {
    var mount := if r.owner.None? then Unmounted else Ready;
    c.(activeOwnerId := r.owner,
       activeController := c.controllers,
       controllers := c.controllers + 1,
       blockedErrorCode := None,
       state := mount,
       body := BodySettled(r),
       done := c.done + [Completion(r, Drained, Resolved(c.epoch, mount))],
       log := c.log + [Installed(c.epoch, r.owner)])
  }

  function Block(c: Coordinator, r: Request, d: Drain): Coordinator {
    var code := if d == DrainTimedOut then TransitionTimeout else TransitionFailed;
    c.(activeOwnerId := None,
       state := Blocked,
       blockedErrorCode := Some(code),
       body := BodySettled(r),
       done := c.done + [Completion(r, d, Rejected(code))],
       log := c.log + [StopMissed(c.epoch)])
  }

  /** The body of a transition up to its first await. */
  function RunTransition(c: Coordinator, r: Request): Coordinator {
    if IsNoop(c.state, c.activeOwnerId, r.owner) then
      c.(body := BodySettled(r), done := c.done + [Completion(r, Drained, CurrentOutcome(c))])
    else
      var hadMountedContext := c.activeOwnerId.Some? || c.state == Blocked;
      var b := Begin(c);
      if hadMountedContext then
        b.(body := AwaitingDrain(r, b.epoch),
           cleanups := b.cleanups + {b.epoch},
           log := b.log + [StopCalled(b.epoch)])
      else Install(b, r)
  }

  function Call(c: Coordinator, owner: Option<OwnerId>): Coordinator {
    var r := Request(c.calls, owner);
    var c := c.(calls := c.calls + 1);
    if c.pendingTransitions == 0 && IsNoop(c.state, c.activeOwnerId, owner) then
      c.(done := c.done + [Completion(r, Drained, CurrentOutcome(c))])
    else
      var c := c.(pendingTransitions := c.pendingTransitions + 1);
      if c.pendingTransitions == 1 then RunTransition(c, r)
      else c.(queue := c.queue + [r])
  }

  /** The race of the drain with the given epoch is decided. */
  function DecideDrain(c: Coordinator, epoch: nat, d: Drain): Coordinator {
    if !(c.body.AwaitingDrain? && c.body.epoch == epoch) then c
    else if d == Drained then
      Install(c.(log := c.log + [StopSucceeded(c.epoch)]), c.body.request)
    else Block(c, c.body.request, d)
  }

  function CleanupSettles(c: Coordinator, epoch: nat, d: Drain): Coordinator {
    if epoch !in c.cleanups then c
    else DecideDrain(c.(cleanups := c.cleanups - {epoch}), epoch, d)
  }

  function HandlerRuns(c: Coordinator): Coordinator {
    if !c.body.BodySettled? || c.pendingTransitions == 0 then c
    else c.(body := NoBody, pendingTransitions := c.pendingTransitions - 1)
  }

  function QueueContinues(c: Coordinator): Coordinator {
    if c.body != NoBody || c.queue == [] then c
    else RunTransition(c.(queue := c.queue[1..]), c.queue[0])
  }

  /**
   * CleanupSettled may arrive at any time, also long after its transition lost
   * the race against the timer.
   */
  datatype Event =
    | Called(owner: Option<OwnerId>)
    | CleanupSettled(epoch: nat, drain: Drain)
    | TimerFired(epoch: nat)
    | HandlerRan
    | QueueContinued

  function Step(c: Coordinator, e: Event): Coordinator {
    match e
    case Called(owner) => Call(c, owner)
    case CleanupSettled(epoch, d) => CleanupSettles(c, epoch, d)
    case TimerFired(epoch) => DecideDrain(c, epoch, DrainTimedOut)
    case HandlerRan => HandlerRuns(c)
    case QueueContinued => QueueContinues(c)
  }

  function Run(c: Coordinator, es: seq<Event>): Coordinator {
    if es == [] then c else Step(Run(c, es[..|es| - 1]), es[|es| - 1])
  }

  function Acquire(c: Coordinator): Result<Lease, LeaseError> {
    if c.state != Ready || c.activeOwnerId.None? then
      Err(if c.state == Blocked then
            BlockedBy(if c.blockedErrorCode.Some? then c.blockedErrorCode.value else TransitionTimeout)
          else InProgress)
    else Ok(Lease(c.epoch, c.activeController))
  }

  predicate Current(c: Coordinator, l: Lease) {
    c.state == Ready && c.epoch == l.epoch && l.controller !in c.aborted
  }

  /** The error assertCurrent throws for a lease that is no longer current. */
  function StaleError(c: Coordinator, l: Lease): LeaseError {
    if c.state == Ready && c.epoch != l.epoch then OwnerChanged
    else if c.state == Blocked then
      BlockedBy(if c.blockedErrorCode.Some? then c.blockedErrorCode.value else TransitionTimeout)
    else InProgress
  }

  // ---------------------------------------------------------------------
  // The sequential reference machine
  // ---------------------------------------------------------------------

  /** What one owner switch at a time would do; no queue, no promises. */
  datatype Sequential = Sequential(owner: Option<OwnerId>, mount: Mount, code: Option<BlockCode>, epoch: nat)

  predicate SequentialNoop(s: Sequential, owner: Option<OwnerId>) {
    if owner.None? then s.mount == Unmounted else s.mount == Ready && s.owner == owner
  }

  predicate NeedsDrain(s: Sequential) {
    s.mount == Ready || s.mount == Blocked
  }

  function Switch(s: Sequential, owner: Option<OwnerId>, d: Drain): Sequential {
    if SequentialNoop(s, owner) then s
    else if NeedsDrain(s) && d == DrainTimedOut then Sequential(None, Blocked, Some(TransitionTimeout), s.epoch + 1)
    else if NeedsDrain(s) && d == DrainFailed then Sequential(None, Blocked, Some(TransitionFailed), s.epoch + 1)
    else Sequential(owner, if owner.Some? then Ready else Unmounted, None, s.epoch + 1)
  }

  function SwitchAll(done: seq<Completion>): Sequential {
    if done == [] then Sequential(None, Unmounted, None, 0)
    else
      var last := done[|done| - 1];
      Switch(SwitchAll(done[..|done| - 1]), last.request.owner, last.drain)
  }

  function OutcomeOf(s: Sequential): Outcome {
    if s.code.Some? then Rejected(s.code.value) else Resolved(s.epoch, s.mount)
  }

  function Abstract(c: Coordinator): Sequential {
    Sequential(c.activeOwnerId, c.state, c.blockedErrorCode, c.epoch)
  }

  // ---------------------------------------------------------------------
  // Invariant
  // ---------------------------------------------------------------------

  function InFlight(c: Coordinator): seq<Request> {
    (if c.body.AwaitingDrain? then [c.body.request] else []) + c.queue
  }

  function Requests(done: seq<Completion>): seq<Request> {
    seq(|done|, i requires 0 <= i < |done| => done[i].request)
  }

  /** Completed requests, then the draining one, then the queue. */
  function Admitted(c: Coordinator): seq<Request> {
    Requests(c.done) + InFlight(c)
  }

  /** The transitionTo calls of a run, numbered in call order. */
  function CallsOf(es: seq<Event>): seq<Request> {
    if es == [] then []
    else
      var earlier := CallsOf(es[..|es| - 1]);
      var last := es[|es| - 1];
      if last.Called? then earlier + [Request(|earlier|, last.owner)] else earlier
  }

  predicate Settled(s: Sequential) {
    && s.mount != Transitioning
    && (s.mount == Ready <==> s.owner.Some?)
    && (s.mount == Blocked <==> s.code.Some?)
  }

  predicate OutcomesMatch(done: seq<Completion>) {
    forall i {:trigger done[i]} :: 0 <= i < |done| ==> done[i].outcome == OutcomeOf(SwitchAll(done[..i + 1]))
  }

  predicate Refines(c: Coordinator) {
    var s := SwitchAll(c.done);
    && Settled(s)
    && OutcomesMatch(c.done)
    && if c.body.AwaitingDrain? then
         && NeedsDrain(s)
         && !SequentialNoop(s, c.body.request.owner)
         && Abstract(c) == Sequential(s.owner, Transitioning, None, s.epoch + 1)
         && c.body.epoch == c.epoch
       else Abstract(c) == s
  }

  predicate Counted(c: Coordinator) {
    && c.pendingTransitions == |c.queue| + (if c.body == NoBody then 0 else 1)
    && (forall e :: e in c.cleanups ==> e <= c.epoch)
    && (c.body.AwaitingDrain? ==> c.body.epoch in c.cleanups)
    && c.activeController < c.controllers
    && c.activeController !in c.aborted
    && (forall k :: k in c.aborted ==> k < c.controllers)
  }

  /** Epoch of the transition the log has left open. */
  function OpenTransition(log: seq<LogEntry>): Option<nat> {
    if log == [] then None
    else
      var last := log[|log| - 1];
      match last
      case Began(e) => Some(e)
      case StopCalled(_) => OpenTransition(log[..|log| - 1])
      case StopSucceeded(_) => OpenTransition(log[..|log| - 1])
      case StopMissed(_) => None
      case Installed(_, _) => None
  }

  function Transitions(log: seq<LogEntry>): nat {
    if log == [] then 0
    else Transitions(log[..|log| - 1]) + if log[|log| - 1].Began? then 1 else 0
  }

  predicate LeavesContext(entry: LogEntry) {
    entry.StopMissed? || (entry.Installed? && entry.owner.Some?)
  }

  /** A context was mounted, or a drain was missed, and no drain has succeeded since. */
  predicate Undrained(log: seq<LogEntry>) {
    log != [] &&
    var last := log[|log| - 1];
    (LeavesContext(last) || (!last.StopSucceeded? && Undrained(log[..|log| - 1])))
  }

  predicate WellFormedLog(log: seq<LogEntry>) {
    log == [] ||
    var before := log[..|log| - 1];
    var last := log[|log| - 1];
    && WellFormedLog(before)
    && match last
       case Began(_) => OpenTransition(before) == None
       case StopCalled(e) => OpenTransition(before) == Some(e)
       case StopSucceeded(e) => OpenTransition(before) == Some(e) && before != [] && before[|before| - 1] == StopCalled(e)
       case StopMissed(e) => OpenTransition(before) == Some(e) && before != [] && before[|before| - 1] == StopCalled(e)
       case Installed(e, _) => OpenTransition(before) == Some(e) && !Undrained(before)
  }

  predicate Logged(c: Coordinator) {
    && WellFormedLog(c.log)
    && OpenTransition(c.log) == (if c.body.AwaitingDrain? then Some(c.epoch) else None)
    && (c.body.AwaitingDrain? ==> c.log != [] && c.log[|c.log| - 1] == StopCalled(c.epoch))
    && c.epoch == Transitions(c.log)
    && Undrained(c.log) == (c.body.AwaitingDrain? || c.activeOwnerId.Some? || c.state == Blocked)
  }

  predicate Inv(c: Coordinator) {
    Counted(c) && Refines(c) && Logged(c)
  }

  lemma AppendLog(log: seq<LogEntry>, entry: LogEntry)
    ensures (log + [entry])[..|log + [entry]| - 1] == log
  {
  }

  lemma AppendDone(done: seq<Completion>, x: Completion)
    requires OutcomesMatch(done)
    requires x.outcome == OutcomeOf(Switch(SwitchAll(done), x.request.owner, x.drain))
    ensures SwitchAll(done + [x]) == Switch(SwitchAll(done), x.request.owner, x.drain)
    ensures OutcomesMatch(done + [x])
  {
    var d := done + [x];
    assert d[..|d| - 1] == done;
    forall i | 0 <= i < |d| ensures d[i].outcome == OutcomeOf(SwitchAll(d[..i + 1])) {
      if i < |done| {
        assert d[..i + 1] == done[..i + 1];
      } else {
        assert d[..i + 1] == d;
      }
    }
  }

  lemma LogGrows(log: seq<LogEntry>, entry: LogEntry)
    requires WellFormedLog(log)
    requires entry.Began? ==> OpenTransition(log) == None
    requires !entry.Began? ==> OpenTransition(log) == Some(entry.epoch)
    requires entry.Installed? ==> !Undrained(log)
    requires entry.StopSucceeded? || entry.StopMissed? ==> log != [] && log[|log| - 1] == StopCalled(entry.epoch)
    ensures WellFormedLog(log + [entry])
    ensures OpenTransition(log + [entry]) ==
      (if entry.StopMissed? || entry.Installed? then None else Some(entry.epoch))
    ensures Transitions(log + [entry]) == Transitions(log) + if entry.Began? then 1 else 0
    ensures Undrained(log + [entry]) == (LeavesContext(entry) || (!entry.StopSucceeded? && Undrained(log)))
  {
    AppendLog(log, entry);
  }

  lemma RunTransitionKeepsAdmitted(c: Coordinator, r: Request)
    requires c.body == NoBody
    ensures Admitted(RunTransition(c, r)) == Requests(c.done) + [r] + c.queue
    ensures RunTransition(c, r).calls == c.calls
  {
    var c' := RunTransition(c, r);
    if !c'.body.AwaitingDrain? {
      assert Requests(c'.done) == Requests(c.done) + [r];
    }
  }

  lemma DecideDrainKeepsAdmitted(c: Coordinator, epoch: nat, d: Drain)
    ensures Admitted(DecideDrain(c, epoch, d)) == Admitted(c)
    ensures DecideDrain(c, epoch, d).calls == c.calls
  {
    var c' := DecideDrain(c, epoch, d);
    if |c'.done| != |c.done| {
      assert Requests(c'.done) == Requests(c.done) + [c.body.request];
    }
  }

  /** No step drops, repeats or reorders a request. */
  lemma StepAdmits(c: Coordinator, e: Event)
    requires Counted(c)
    ensures Admitted(Step(c, e)) == Admitted(c) + (if e.Called? then [Request(c.calls, e.owner)] else [])
    ensures Step(c, e).calls == c.calls + if e.Called? then 1 else 0
  {
    match e
    case Called(owner) =>
      var r := Request(c.calls, owner);
      if c.pendingTransitions == 0 {
        if IsNoop(c.state, c.activeOwnerId, owner) {
          assert Requests(Call(c, owner).done) == Requests(c.done) + [r];
        } else {
          RunTransitionKeepsAdmitted(c.(calls := c.calls + 1, pendingTransitions := 1), r);
        }
      }
    case CleanupSettled(epoch, d) =>
      if epoch in c.cleanups {
        DecideDrainKeepsAdmitted(c.(cleanups := c.cleanups - {epoch}), epoch, d);
      }
    case TimerFired(epoch) => DecideDrainKeepsAdmitted(c, epoch, DrainTimedOut);
    case HandlerRan =>
    case QueueContinued =>
      if c.body == NoBody && c.queue != [] {
        RunTransitionKeepsAdmitted(c.(queue := c.queue[1..]), c.queue[0]);
      }
  }

  lemma StepKeepsCounts(c: Coordinator, e: Event)
    requires Counted(c)
    requires c.body.AwaitingDrain? ==> c.body.epoch == c.epoch
    ensures Counted(Step(c, e))
  {
  }

  lemma RunTransitionRefines(c: Coordinator, r: Request)
    requires Refines(c) && !c.body.AwaitingDrain?
    ensures Refines(RunTransition(c, r))
  {
    hide SwitchAll, OutcomesMatch;
    if IsNoop(c.state, c.activeOwnerId, r.owner) {
      AppendDone(c.done, Completion(r, Drained, CurrentOutcome(c)));
    } else if !(c.activeOwnerId.Some? || c.state == Blocked) {
      InstallAppends(Begin(c), r);
      AppendDone(c.done, Completion(r, Drained, Resolved(c.epoch + 1, if r.owner.None? then Unmounted else Ready)));
    }
  }

  lemma InstallAppends(c: Coordinator, r: Request)
    ensures
      var mount := if r.owner.None? then Unmounted else Ready;
      && Install(c, r).done == c.done + [Completion(r, Drained, Resolved(c.epoch, mount))]
      && Install(c, r).body == BodySettled(r)
      && Abstract(Install(c, r)) == Sequential(r.owner, mount, None, c.epoch)
  {
  }

  lemma DecideDrainRefines(c: Coordinator, epoch: nat, d: Drain)
    requires Refines(c)
    ensures Refines(DecideDrain(c, epoch, d))
  {
    hide SwitchAll, OutcomesMatch;
    if c.body.AwaitingDrain? && c.body.epoch == epoch {
      var r := c.body.request;
      if d == Drained {
        InstallAppends(c.(log := c.log + [StopSucceeded(c.epoch)]), r);
        AppendDone(c.done, Completion(r, Drained, Resolved(c.epoch, if r.owner.None? then Unmounted else Ready)));
      } else {
        AppendDone(c.done, Completion(r, d, Rejected(if d == DrainTimedOut then TransitionTimeout else TransitionFailed)));
      }
    }
  }

  lemma NoopCallRefines(c: Coordinator, owner: Option<OwnerId>)
    requires Refines(c) && Counted(c) && c.pendingTransitions == 0 && IsNoop(c.state, c.activeOwnerId, owner)
    ensures
      var done := c.done + [Completion(Request(c.calls, owner), Drained, CurrentOutcome(c))];
      Settled(SwitchAll(done)) && OutcomesMatch(done) && SwitchAll(done) == SwitchAll(c.done)
  {
    AppendDone(c.done, Completion(Request(c.calls, owner), Drained, CurrentOutcome(c)));
  }

  lemma StepRefines(c: Coordinator, e: Event)
    requires Refines(c) && Counted(c)
    ensures Refines(Step(c, e))
  {
    hide SwitchAll, OutcomesMatch, Settled, SequentialNoop, NeedsDrain, RunTransition, DecideDrain;
    match e
    case Called(owner) =>
      var r := Request(c.calls, owner);
      var c' := c.(calls := c.calls + 1);
      if c.pendingTransitions == 0 {
        if IsNoop(c.state, c.activeOwnerId, owner) {
          NoopCallRefines(c, owner);
        } else {
          RunTransitionRefines(c'.(pendingTransitions := 1), r);
        }
      }
    case CleanupSettled(epoch, d) =>
      if epoch in c.cleanups {
        DecideDrainRefines(c.(cleanups := c.cleanups - {epoch}), epoch, d);
      }
    case TimerFired(epoch) => DecideDrainRefines(c, epoch, DrainTimedOut);
    case HandlerRan =>
    case QueueContinued =>
      if c.body == NoBody && c.queue != [] {
        RunTransitionRefines(c.(queue := c.queue[1..]), c.queue[0]);
      }
  }

  lemma BeginKeepsLog(log: seq<LogEntry>, e: nat, owner: Option<OwnerId>)
    requires WellFormedLog(log) && OpenTransition(log) == None
    ensures var stopping := log + [Began(e)] + [StopCalled(e)];
      && WellFormedLog(stopping) && OpenTransition(stopping) == Some(e)
      && Transitions(stopping) == Transitions(log) + 1
      && Undrained(stopping) == Undrained(log)
    ensures var installed := log + [Began(e)] + [Installed(e, owner)];
      !Undrained(log) ==>
        && WellFormedLog(installed) && OpenTransition(installed) == None
        && Transitions(installed) == Transitions(log) + 1
        && Undrained(installed) == owner.Some?
  {
    LogGrows(log, Began(e));
    LogGrows(log + [Began(e)], StopCalled(e));
    if !Undrained(log) {
      LogGrows(log + [Began(e)], Installed(e, owner));
    }
  }

  lemma RunTransitionKeepsLog(c: Coordinator, r: Request)
    requires Logged(c) && !c.body.AwaitingDrain?
    ensures Logged(RunTransition(c, r))
  {
    if !IsNoop(c.state, c.activeOwnerId, r.owner) {
      BeginKeepsLog(c.log, c.epoch + 1, r.owner);
    }
  }

  lemma DecideDrainKeepsLog(c: Coordinator, epoch: nat, d: Drain)
    requires Logged(c)
    ensures Logged(DecideDrain(c, epoch, d))
  {
    if c.body.AwaitingDrain? && c.body.epoch == epoch {
      if d == Drained {
        LogGrows(c.log, StopSucceeded(c.epoch));
        LogGrows(c.log + [StopSucceeded(c.epoch)], Installed(c.epoch, c.body.request.owner));
      } else {
        LogGrows(c.log, StopMissed(c.epoch));
      }
    }
  }

  lemma StepKeepsLog(c: Coordinator, e: Event)
    requires Logged(c) && Counted(c)
    ensures Logged(Step(c, e))
  {
    match e
    case Called(owner) =>
      var c' := c.(calls := c.calls + 1);
      if c.pendingTransitions == 0 && !IsNoop(c.state, c.activeOwnerId, owner) {
        RunTransitionKeepsLog(c'.(pendingTransitions := 1), Request(c.calls, owner));
      }
    case CleanupSettled(epoch, d) =>
      if epoch in c.cleanups {
        DecideDrainKeepsLog(c.(cleanups := c.cleanups - {epoch}), epoch, d);
      }
    case TimerFired(epoch) => DecideDrainKeepsLog(c, epoch, DrainTimedOut);
    case HandlerRan =>
    case QueueContinued =>
      if c.body == NoBody && c.queue != [] {
        RunTransitionKeepsLog(c.(queue := c.queue[1..]), c.queue[0]);
      }
  }

  lemma StepKeepsInv(c: Coordinator, e: Event)
    requires Inv(c)
    ensures Inv(Step(c, e))
  {
    StepKeepsCounts(c, e);
    StepRefines(c, e);
    StepKeepsLog(c, e);
  }

  lemma {:induction false} RunKeepsInv(es: seq<Event>)
    ensures Inv(Run(Initial, es))
    ensures Admitted(Run(Initial, es)) == CallsOf(es)
    ensures Run(Initial, es).calls == |CallsOf(es)|
  {
    if es != [] {
      var c := Run(Initial, es[..|es| - 1]);
      var e := es[|es| - 1];
      RunKeepsInv(es[..|es| - 1]);
      StepAdmits(c, e);
      StepKeepsInv(c, e);
    }
  }

  // ---------------------------------------------------------------------
  // Main results
  // ---------------------------------------------------------------------

  /**
   * Every run refines the sequential machine: the completed requests are the
   * first calls in call order, each with the outcome the sequential machine
   * gives it, and once everything has settled owner, state, block code and
   * epoch are those of the sequential machine folded over all calls.
   */
  lemma QueueRefinesSequential(es: seq<Event>)
    ensures var c := Run(Initial, es);
      && Requests(c.done) <= CallsOf(es)
      && OutcomesMatch(c.done)
      && (!c.body.AwaitingDrain? ==> Abstract(c) == SwitchAll(c.done))
      && (c.pendingTransitions == 0 ==> Requests(c.done) == CallsOf(es))
  {
    RunKeepsInv(es);
  }

  lemma {:induction false} EndsBetween(log: seq<LogEntry>, i: nat)
    requires WellFormedLog(log) && i < |log| && log[i].Began?
    ensures OpenTransition(log) == Some(log[i].epoch) ||
      exists k :: i < k < |log| && (log[k].Installed? || log[k].StopMissed?) && log[k].epoch == log[i].epoch
  {
    if i < |log| - 1 {
      var before := log[..|log| - 1];
      EndsBetween(before, i);
      if k :| i < k < |before| && (before[k].Installed? || before[k].StopMissed?) && before[k].epoch == before[i].epoch {
        assert log[k] == before[k];
      }
    }
  }

  lemma {:induction false} WellFormedPrefix(log: seq<LogEntry>, n: nat)
    requires WellFormedLog(log) && n <= |log|
    ensures WellFormedLog(log[..n])
  {
    if n < |log| {
      WellFormedPrefix(log[..|log| - 1], n);
      assert log[..|log| - 1][..n] == log[..n];
    } else {
      assert log[..n] == log;
    }
  }

  /** Two transition bodies never overlap: the first one ends before the second begins. */
  lemma TransitionsNeverOverlap(es: seq<Event>, i: nat, j: nat)
    requires i < j < |Run(Initial, es).log|
    requires Run(Initial, es).log[i].Began? && Run(Initial, es).log[j].Began?
    ensures var log := Run(Initial, es).log;
      exists k :: i < k < j && (log[k].Installed? || log[k].StopMissed?) && log[k].epoch == log[i].epoch
  {
    RunKeepsInv(es);
    var log := Run(Initial, es).log;
    WellFormedPrefix(log, j + 1);
    var before := log[..j];
    assert log[..j + 1][..j] == before;
    WellFormedPrefix(log, j);
    EndsBetween(before, i);
    var k :| i < k < |before| && (before[k].Installed? || before[k].StopMissed?) && before[k].epoch == before[i].epoch;
    assert log[k] == before[k];
  }

  /** A stop call that succeeded within its own transition. */
  predicate DrainedAt(log: seq<LogEntry>, k: int) {
    && 0 < k < |log|
    && log[k].StopSucceeded?
    && log[k - 1] == StopCalled(log[k].epoch)
  }

  lemma {:induction false} DrainedBetween(log: seq<LogEntry>, i: nat)
    requires WellFormedLog(log) && i < |log| && LeavesContext(log[i])
    ensures Undrained(log) || exists k :: i < k < |log| && DrainedAt(log, k)
  {
    if i < |log| - 1 {
      var before := log[..|log| - 1];
      DrainedBetween(before, i);
      if Undrained(before) {
        if log[|log| - 1].StopSucceeded? {
          assert DrainedAt(log, |log| - 1);
        }
      } else {
        var k :| i < k < |before| && DrainedAt(before, k);
        assert DrainedAt(log, k);
      }
    }
  }

  lemma DrainedBeforeInstall(log: seq<LogEntry>, i: nat, j: nat)
    requires WellFormedLog(log) && i < j < |log|
    requires LeavesContext(log[i]) && log[j].Installed?
    ensures exists k :: i < k < j && DrainedAt(log, k)
  {
    WellFormedPrefix(log, j + 1);
    var before := log[..j];
    assert log[..j + 1][..j] == before;
    DrainedBetween(before, i);
    var k :| i < k < |before| && DrainedAt(before, k);
    assert DrainedAt(log, k);
  }

  /**
   * Drain before mount: whenever a transition installs its owner, every context
   * mounted earlier and every drain that failed or timed out earlier was
   * followed by a stop call that succeeded.
   */
  lemma DrainBeforeMount(es: seq<Event>, i: nat, j: nat)
    requires i < j < |Run(Initial, es).log|
    requires LeavesContext(Run(Initial, es).log[i]) && Run(Initial, es).log[j].Installed?
    ensures exists k :: i < k < j && DrainedAt(Run(Initial, es).log, k)
  {
    RunKeepsInv(es);
    DrainedBeforeInstall(Run(Initial, es).log, i, j);
  }

  /** Until a drain succeeds, a blocked coordinator is blocked or retrying and grants no lease. */
  lemma BlockedFailsClosed(es: seq<Event>, i: nat)
    requires i < |Run(Initial, es).log| && Run(Initial, es).log[i].StopMissed?
    requires forall k :: i < k < |Run(Initial, es).log| ==> !DrainedAt(Run(Initial, es).log, k)
    ensures var c := Run(Initial, es);
      && (c.state == Blocked || c.state == Transitioning)
      && Acquire(c).Err?
      && (c.state == Blocked ==> c.activeOwnerId == None)
  {
    RunKeepsInv(es);
    var c := Run(Initial, es);
    DrainedBetween(c.log, i);
    if c.activeOwnerId.Some? {
      MountedIsLast(es, i);
    }
  }

  /** If the coordinator is mounted after a missed drain, a drain succeeded in between. */
  lemma MountedIsLast(es: seq<Event>, i: nat)
    requires i < |Run(Initial, es).log| && Run(Initial, es).log[i].StopMissed?
    requires Run(Initial, es).activeOwnerId.Some?
    ensures exists k :: i < k < |Run(Initial, es).log| && DrainedAt(Run(Initial, es).log, k)
  {
    RunKeepsInv(es);
    var log := Run(Initial, es).log;
    InstallFollowsMissedDrain(es);
    var j :| 0 <= j < |log| && log[j].Installed? && (forall k :: j < k < |log| ==> !log[k].StopMissed?);
    DrainBeforeMount(es, i, j);
  }

  /** A mounted owner was installed after the last missed drain. */
  lemma {:induction false} InstallFollowsMissedDrain(es: seq<Event>)
    requires Run(Initial, es).activeOwnerId.Some?
    ensures var log := Run(Initial, es).log;
      exists j :: 0 <= j < |log| && log[j].Installed? && (forall k :: j < k < |log| ==> !log[k].StopMissed?)
  {
    var d := Run(Initial, es);
    if es == [] {
      assert false;
    }
    var c := Run(Initial, es[..|es| - 1]);
    StepShapesLog(c, es[|es| - 1]);
    if d.log == [] || !d.log[|d.log| - 1].Installed? {
      InstallFollowsMissedDrain(es[..|es| - 1]);
      var j :| 0 <= j < |c.log| && c.log[j].Installed? && (forall k :: j < k < |c.log| ==> !c.log[k].StopMissed?);
      assert d.log[j].Installed?;
    }
  }

  lemma StepShapesLog(c: Coordinator, e: Event)
    requires Step(c, e).activeOwnerId.Some?
    ensures c.log <= Step(c, e).log
    ensures (Step(c, e).log != [] && Step(c, e).log[|Step(c, e).log| - 1].Installed?) ||
      (c.activeOwnerId.Some? && forall k :: |c.log| <= k < |Step(c, e).log| ==> !Step(c, e).log[k].StopMissed?)
  {
  }

  /** A cleanup that settles after its race was decided changes nothing. */
  lemma LateSettlementChangesNothing(es: seq<Event>, epoch: nat, d: Drain)
    requires !Run(Initial, es).body.AwaitingDrain? || epoch != Run(Initial, es).epoch
    ensures var c := Run(Initial, es); CleanupSettles(c, epoch, d) == c.(cleanups := c.cleanups - {epoch})
  {
    RunKeepsInv(es);
  }

  // ---------------------------------------------------------------------
  // Leases
  // ---------------------------------------------------------------------

  predicate Held(c: Coordinator, l: Lease) {
    && l.epoch <= c.epoch
    && l.controller < c.controllers
    && (l.epoch == c.epoch ==> c.state == Ready && c.activeController == l.controller)
    && (l.controller in c.aborted <==> l.epoch < c.epoch)
    && (c.activeController == l.controller ==> l.epoch == c.epoch)
  }

  lemma StepKeepsHeld(c: Coordinator, l: Lease, e: Event)
    requires Inv(c) && Held(c, l)
    ensures Held(Step(c, e), l)
    ensures c.log <= Step(c, e).log
    ensures c.epoch <= Step(c, e).epoch
  {
  }

  lemma {:induction false} RunKeepsHeld(c: Coordinator, l: Lease, es: seq<Event>)
    requires Inv(c) && Held(c, l)
    ensures Inv(Run(c, es)) && Held(Run(c, es), l)
    ensures c.log <= Run(c, es).log
    ensures c.epoch <= Run(c, es).epoch
  {
    if es != [] {
      var d := Run(c, es[..|es| - 1]);
      var e := es[|es| - 1];
      RunKeepsHeld(c, l, es[..|es| - 1]);
      StepKeepsInv(d, e);
      StepKeepsHeld(d, l, e);
    }
  }

  /**
   * A lease is current exactly while no later epoch has begun; its signal is
   * aborted exactly when one has; and once assertCurrent fails it fails in
   * every later state.
   */
  lemma LeaseSoundness(es: seq<Event>, l: Lease, more: seq<Event>, later: seq<Event>)
    requires Acquire(Run(Initial, es)) == Ok(l)
    ensures var c := Run(Initial, es); var d := Run(c, more);
      && (Current(d, l) <==> d.epoch == l.epoch)
      && (Current(d, l) <==> Transitions(d.log) == Transitions(c.log))
      && (l.controller in d.aborted <==> l.epoch < d.epoch)
      && (!Current(d, l) ==> !Current(Run(d, later), l))
  {
    RunKeepsInv(es);
    var c := Run(Initial, es);
    RunKeepsHeld(c, l, more);
    RunKeepsHeld(Run(c, more), l, later);
  }

  // ---------------------------------------------------------------------
  // The coordinator's closure variables and their updates
  // ---------------------------------------------------------------------

  /**
   * `queue` and `body` stand for the promise chain; `calls`, `done` and `log`
   * are history. Abort signals are numbered; `aborted` holds the aborted ones.
   */
  class OwnerSwitchCoordinator {
    var activeOwnerId: Option<OwnerId>
    var epoch: nat
    var state: Mount
    var blockedErrorCode: Option<BlockCode>
    var activeController: nat
    var controllers: nat
    var aborted: set<nat>
    var pendingTransitions: nat
    var queue: seq<Request>
    var body: Body
    var cleanups: set<nat>
    var calls: nat
    ghost var done: seq<Completion>
    ghost var log: seq<LogEntry>

    ghost function View(): Coordinator
      reads this
    {
      Coordinator(activeOwnerId, epoch, state, blockedErrorCode, activeController, controllers, aborted,
                  pendingTransitions, queue, body, cleanups, calls, done, log)
    }

    constructor ()
      ensures View() == Initial
    {
      activeOwnerId, epoch, state, blockedErrorCode := None, 0, Unmounted, None;
      activeController, controllers, aborted := 0, 1, {};
      pendingTransitions, queue, body, cleanups, calls := 0, [], NoBody, {}, 0;
      done, log := [], [];
    }

    method NewController()
      modifies this`activeController, this`controllers
      ensures activeController == old(controllers) && controllers == old(controllers) + 1
    {
      activeController, controllers := controllers, controllers + 1;
    }

    method BeginTransition() returns (hadMountedContext: bool)
      modifies this
      ensures View() == Begin(old(View()))
      ensures hadMountedContext == (old(activeOwnerId).Some? || old(state) == Blocked)
    {
      hadMountedContext := activeOwnerId.Some? || state == Blocked;
      epoch := epoch + 1;
      state := Transitioning;
      blockedErrorCode := None;
      aborted := aborted + {activeController};
      NewController();
      log := log + [Began(epoch)];
    }

    method InstallOwner(r: Request)
      modifies this
      ensures View() == Install(old(View()), r)
    {
      activeOwnerId := r.owner;
      NewController();
      blockedErrorCode := None;
      state := if r.owner.None? then Unmounted else Ready;
      body := BodySettled(r);
      done := done + [Completion(r, Drained, Resolved(epoch, state))];
      log := log + [Installed(epoch, r.owner)];
    }

    method FailTransition(r: Request, d: Drain)
      modifies this
      ensures View() == Block(old(View()), r, d)
    {
      activeOwnerId := None;
      state := Blocked;
      var code := if d == DrainTimedOut then TransitionTimeout else TransitionFailed;
      blockedErrorCode := Some(code);
      body := BodySettled(r);
      done := done + [Completion(r, d, Rejected(code))];
      log := log + [StopMissed(epoch)];
    }

    method StartTransition(r: Request)
      modifies this
      ensures View() == RunTransition(old(View()), r)
    {
      if IsNoop(state, activeOwnerId, r.owner) {
        done := done + [Completion(r, Drained, CurrentOutcome(View()))];
        body := BodySettled(r);
      } else {
        var hadMountedContext := BeginTransition();
        if hadMountedContext {
          body := AwaitingDrain(r, epoch);
          cleanups := cleanups + {epoch};
          log := log + [StopCalled(epoch)];
        } else {
          InstallOwner(r);
        }
      }
    }

    method TransitionTo(requestedOwnerId: Option<OwnerId>)
      modifies this
      ensures View() == Call(old(View()), requestedOwnerId)
    {
      var r := Request(calls, requestedOwnerId);
      calls := calls + 1;
      if pendingTransitions == 0 && IsNoop(state, activeOwnerId, requestedOwnerId) {
        done := done + [Completion(r, Drained, CurrentOutcome(View()))];
        return;
      }
      pendingTransitions := pendingTransitions + 1;
      if pendingTransitions == 1 {
        StartTransition(r);
      } else {
        queue := queue + [r];
      }
    }

    method RaceDecided(forEpoch: nat, d: Drain)
      modifies this
      ensures View() == DecideDrain(old(View()), forEpoch, d)
    {
      if body.AwaitingDrain? && body.epoch == forEpoch {
        if d == Drained {
          log := log + [StopSucceeded(epoch)];
          InstallOwner(body.request);
        } else {
          FailTransition(body.request, d);
        }
      }
    }

    method CleanupPromiseSettles(forEpoch: nat, d: Drain)
      modifies this
      ensures View() == CleanupSettles(old(View()), forEpoch, d)
    {
      if forEpoch in cleanups {
        cleanups := cleanups - {forEpoch};
        RaceDecided(forEpoch, d);
      }
    }

    /** The handler on `next` that counts the transition as settled. */
    method SettleTracked()
      modifies this
      ensures View() == HandlerRuns(old(View()))
    {
      if body.BodySettled? && pendingTransitions > 0 {
        body := NoBody;
        pendingTransitions := pendingTransitions - 1;
      }
    }

    method ContinueQueue()
      modifies this
      ensures View() == QueueContinues(old(View()))
    {
      if body == NoBody && queue != [] {
        var next := queue[0];
        queue := queue[1..];
        StartTransition(next);
      }
    }

    method Handle(e: Event)
      modifies this
      ensures View() == Step(old(View()), e)
    {
      match e
      case Called(owner) => TransitionTo(owner);
      case CleanupSettled(forEpoch, d) => CleanupPromiseSettles(forEpoch, d);
      case TimerFired(forEpoch) => RaceDecided(forEpoch, DrainTimedOut);
      case HandlerRan => SettleTracked();
      case QueueContinued => ContinueQueue();
    }

    /** Everything that happens while somebody else awaits. */
    method Play(es: seq<Event>)
      modifies this
      ensures View() == Run(old(View()), es)
    {
      var i := 0;
      assert es[..0] == [];
      while i < |es|
        invariant 0 <= i <= |es|
        invariant View() == Run(old(View()), es[..i])
      {
        Handle(es[i]);
        assert es[..i + 1][..i] == es[..i];
        i := i + 1;
      }
      assert es[..i] == es;
    }

    method AcquireLease() returns (r: Result<Lease, LeaseError>)
      ensures r == Acquire(View())
    {
      if state != Ready || activeOwnerId.None? {
        if state == Blocked {
          r := Err(BlockedBy(if blockedErrorCode.Some? then blockedErrorCode.value else TransitionTimeout));
        } else {
          r := Err(InProgress);
        }
      } else {
        r := Ok(Lease(epoch, activeController));
      }
    }

    method AssertCurrent(l: Lease) returns (r: Option<LeaseError>)
      ensures r.None? <==> Current(View(), l)
      ensures r.Some? ==> r.value == StaleError(View(), l)
    {
      if state == Ready && epoch == l.epoch && l.controller !in aborted {
        return None;
      }
      if state == Ready && epoch != l.epoch {
        return Some(OwnerChanged);
      }
      if state == Blocked {
        return Some(BlockedBy(if blockedErrorCode.Some? then blockedErrorCode.value else TransitionTimeout));
      }
      return Some(InProgress);
    }
  }
}
