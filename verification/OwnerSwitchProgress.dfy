/** Every admitted call of the owner switch coordinator settles, and a lease is granted whenever one is due. */
module OwnerSwitchProgress {
  import opened OwnerSwitch
  import opened Wrappers

  // ---------------------------------------------------------------------
  // The queue moves on
  // ---------------------------------------------------------------------

  /** The request holds the queue now, or has just settled in it. */
  predicate Holds(c: Coordinator, r: Request) {
    || (c.body.AwaitingDrain? && c.body.request == r)
    || (c.body == BodySettled(r) && c.done != [] && c.done[|c.done| - 1].request == r)
  }

  /** When no body holds the queue, its next step starts or settles the first request in it. */
  lemma QueueMovesOn(c: Coordinator)
    requires c.body == NoBody && c.queue != []
    ensures
      var after := Step(c, QueueContinued);
      && Holds(after, c.queue[0]) && after.queue == c.queue[1..]
      && after.pendingTransitions == c.pendingTransitions && c.done <= after.done
  {
  }

  /** A decided race settles the request that drained. */
  lemma DrainSettles(c: Coordinator, d: Drain, e: Event)
    requires Counted(c) && c.body.AwaitingDrain?
    requires e == CleanupSettled(c.body.epoch, d) || (e == TimerFired(c.body.epoch) && d == DrainTimedOut)
    ensures
      var after := Step(c, e);
      && after.body == BodySettled(c.body.request) && after.queue == c.queue
      && after.pendingTransitions == c.pendingTransitions
      && after.done == c.done + [after.done[|c.done|]]
      && after.done[|c.done|].request == c.body.request && after.done[|c.done|].drain == d
  {
  }

  // ---------------------------------------------------------------------
  // Until nothing is pending
  // ---------------------------------------------------------------------

  /** What happens next when no further call is made: the drain ends, the handler runs, or the queue continues. */
  function NextEvent(c: Coordinator, d: Drain): Event {
    match c.body
    case AwaitingDrain(_, epoch) => if d == DrainTimedOut then TimerFired(epoch) else CleanupSettled(epoch, d)
    case BodySettled(_) => HandlerRan
    case NoBody => QueueContinued
  }

  /** Steps still to do: three for a queued request, two for one that drains, one for one that has settled. */
  function Work(c: Coordinator): nat {
    3 * |c.queue| + (if c.body.AwaitingDrain? then 2 else if c.body.BodySettled? then 1 else 0)
  }

  lemma WorkIsBounded(c: Coordinator)
    requires Counted(c)
    ensures Work(c) <= 3 * c.pendingTransitions
    ensures Work(c) == 0 <==> c.pendingTransitions == 0
  {
  }

  lemma WorkGoesDown(c: Coordinator, d: Drain)
    requires Counted(c) && c.pendingTransitions > 0
    ensures Work(Step(c, NextEvent(c, d))) < Work(c)
  {
  }

  /** The events up to the last settlement, with these outcomes for the drains on the way. */
  function Drive(c: Coordinator, ds: nat -> Drain, n: nat): seq<Event>
    decreases n
  {
    if n == 0 || c.pendingTransitions == 0 then []
    else
      var e := NextEvent(c, ds(n));
      [e] + Drive(Step(c, e), ds, n - 1)
  }

  lemma {:induction false} RunFromFront(c: Coordinator, e: Event, es: seq<Event>)
    ensures Run(c, [e] + es) == Run(Step(c, e), es)
  {
    if es == [] {
      assert [e] + es == [e];
      assert [e][..0] == [];
    } else {
      var before, last := es[..|es| - 1], es[|es| - 1];
      RunFromFront(c, e, before);
      assert ([e] + es)[..|es|] == [e] + before;
    }
  }

  lemma NothingLeft(c: Coordinator)
    requires Counted(c) && c.pendingTransitions == 0
    ensures Run(c, []) == c && Requests(c.done) == Admitted(c)
  {
    assert Requests(c.done) + [] == Requests(c.done);
  }

  lemma NextKeepsAdmitted(c: Coordinator, d: Drain)
    requires Counted(c)
    ensures !NextEvent(c, d).Called? && Admitted(Step(c, NextEvent(c, d))) == Admitted(c)
  {
    hide Step, Admitted;
    StepAdmits(c, NextEvent(c, d));
  }

  lemma {:induction false} DriveSettlesAll(c: Coordinator, ds: nat -> Drain, n: nat)
    requires Inv(c) && Work(c) <= n
    ensures
      var es := Drive(c, ds, n);
      && |es| <= Work(c) && (forall k :: 0 <= k < |es| ==> !es[k].Called?)
      && Inv(Run(c, es))
      && Run(c, es).pendingTransitions == 0
      && Requests(Run(c, es).done) == Admitted(c)
    decreases n
  {
    hide Step, NextEvent, Work, Run, Admitted, Refines, Logged, Counted, Requests;
    WorkIsBounded(c);
    if c.pendingTransitions == 0 {
      NothingLeft(c);
    } else {
      var e := NextEvent(c, ds(n));
      var rest := Drive(Step(c, e), ds, n - 1);
      WorkGoesDown(c, ds(n));
      StepKeepsInv(c, e);
      NextKeepsAdmitted(c, ds(n));
      DriveSettlesAll(Step(c, e), ds, n - 1);
      RunFromFront(c, e, rest);
    }
  }

  /**
   * From every reachable state, whatever becomes of the drains on the way, at most
   * three steps for every pending request settle every call that was made, in call
   * order and with the outcomes of the sequential machine.
   */
  lemma EveryCallSettles(es: seq<Event>, ds: nat -> Drain)
    ensures
      var c := Run(Initial, es);
      var more := Drive(c, ds, 3 * c.pendingTransitions);
      var d := Run(c, more);
      && |more| <= 3 * c.pendingTransitions && (forall k :: 0 <= k < |more| ==> !more[k].Called?)
      && d.pendingTransitions == 0 && !d.body.AwaitingDrain?
      && Requests(d.done) == CallsOf(es)
      && OutcomesMatch(d.done) && Abstract(d) == SwitchAll(d.done)
  {
    RunKeepsInv(es);
    var c := Run(Initial, es);
    WorkIsBounded(c);
    DriveSettlesAll(c, ds, 3 * c.pendingTransitions);
  }

  // ---------------------------------------------------------------------
  // What a caller is answered
  // ---------------------------------------------------------------------

  /**
   * A lease is granted exactly when no transition is draining and the switches so
   * far left an owner mounted, and refused for what they left instead.
   */
  lemma AcquireExactly(es: seq<Event>)
    ensures
      var c := Run(Initial, es);
      var s := SwitchAll(c.done);
      && (Acquire(c).Ok? <==> !c.body.AwaitingDrain? && s.mount == Ready && s.owner.Some?)
      && (Acquire(c).Ok? ==> Acquire(c).value.epoch == s.epoch && Current(c, Acquire(c).value))
      && (forall code :: Acquire(c) == Err(BlockedBy(code)) <==> !c.body.AwaitingDrain? && s.code == Some(code))
      && Acquire(c) != Err(OwnerChanged)
  {
    RunKeepsInv(es);
  }

  /** What a stale lease is told: another owner is mounted, or the switch was blocked, or one is under way or nothing is mounted. */
  lemma StaleExactly(es: seq<Event>, l: Lease)
    requires l.epoch != Run(Initial, es).epoch
    ensures
      var c := Run(Initial, es);
      var s := SwitchAll(c.done);
      && !Current(c, l)
      && (StaleError(c, l) == OwnerChanged <==> !c.body.AwaitingDrain? && s.mount == Ready)
      && (forall code :: StaleError(c, l) == BlockedBy(code) <==> !c.body.AwaitingDrain? && s.code == Some(code))
  {
    RunKeepsInv(es);
  }

  /** A call that names the mounted owner while nothing is pending is answered at once and changes nothing. */
  lemma NoopCallSettlesAtOnce(es: seq<Event>, owner: Option<OwnerId>)
    requires Run(Initial, es).pendingTransitions == 0 && SequentialNoop(SwitchAll(Run(Initial, es).done), owner)
    ensures
      var c := Run(Initial, es);
      var after := Step(c, Called(owner));
      after == c.(calls := c.calls + 1,
                  done := c.done + [Completion(Request(c.calls, owner), Drained, OutcomeOf(SwitchAll(c.done)))])
  {
    RunKeepsInv(es);
  }
}
