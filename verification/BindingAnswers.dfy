/**
 * What each operation of the binding store leaves for the path and the operation
 * it names, what it leaves alone, and which calls it refuses.
 */
module BindingAnswers {
  import opened ProfileBindings
  import opened Wrappers

  // ---------------------------------------------------------------------
  // Lookups before and after
  // ---------------------------------------------------------------------

  /** Every other path has the binding it had. */
  ghost predicate OtherPathsKept(s: State, t: State, path: Path) {
    forall other :: other != path ==> BindingAt(t, other) == BindingAt(s, other)
  }

  /** Every other operation has the reservation it had. */
  ghost predicate OtherOperationsKept(s: State, t: State, operationId: Uuid) {
    forall other :: other != operationId ==> ReservationOf(t, other) == ReservationOf(s, other)
  }

  lemma {:induction false} AppendedPath(bs: seq<Stored>, x: Stored, other: Path)
    requires other != x.profilePath
    ensures BindingAt(State(bs + [x], []), other) == BindingAt(State(bs, []), other)
  {
    if bs != [] {
      assert (bs + [x])[1..] == bs[1..] + [x];
      AppendedPath(bs[1..], x, other);
    }
  }

  lemma {:induction false} AppendedOperation(ops: seq<Reservation>, x: Reservation, other: Uuid)
    requires other != x.operationId
    ensures ReservationOf(State([], ops + [x]), other) == ReservationOf(State([], ops), other)
  {
    if ops != [] {
      assert (ops + [x])[1..] == ops[1..] + [x];
      AppendedOperation(ops[1..], x, other);
    }
  }

  lemma {:induction false} UpdatedPath(bs: seq<Stored>, i: nat, x: Stored, other: Path)
    requires i < |bs| && bs[i].profilePath == x.profilePath && other != x.profilePath
    ensures BindingAt(State(bs[i := x], []), other) == BindingAt(State(bs, []), other)
  {
    if i == 0 {
      assert bs[0 := x][1..] == bs[1..];
    } else {
      assert bs[i := x][1..] == bs[1..][i - 1 := x];
      UpdatedPath(bs[1..], i - 1, x, other);
    }
  }

  lemma {:induction false} RemovedPath(bs: seq<Stored>, i: nat, other: Path)
    requires i < |bs| && other != bs[i].profilePath
    ensures BindingAt(State(RemoveAt(bs, i), []), other) == BindingAt(State(bs, []), other)
  {
    if i == 0 {
      assert RemoveAt(bs, 0) == bs[1..];
    } else {
      assert RemoveAt(bs, i)[1..] == RemoveAt(bs[1..], i - 1);
      RemovedPath(bs[1..], i - 1, other);
    }
  }

  lemma {:induction false} RemovedOperation(ops: seq<Reservation>, k: nat, other: Uuid)
    requires k < |ops| && other != ops[k].operationId
    ensures ReservationOf(State([], RemoveAt(ops, k)), other) == ReservationOf(State([], ops), other)
  {
    if k == 0 {
      assert RemoveAt(ops, 0) == ops[1..];
    } else {
      assert RemoveAt(ops, k)[1..] == RemoveAt(ops[1..], k - 1);
      RemovedOperation(ops[1..], k - 1, other);
    }
  }

  /** A reservation that leaves a store of distinct operations is gone. */
  lemma GoneOperation(ops: seq<Reservation>, k: nat)
    requires UniqueOperations(ops) && k < |ops|
    ensures ReservationOf(State([], RemoveAt(ops, k)), ops[k].operationId) == None
  {
    var after := RemoveAt(ops, k);
    assert forall n :: 0 <= n < |after| ==> after[n] == ops[if n < k then n else n + 1];
  }

  lemma GonePath(bs: seq<Stored>, i: nat)
    requires UniquePaths(bs) && i < |bs|
    ensures BindingAt(State(RemoveAt(bs, i), []), bs[i].profilePath) == None
  {
    var after := RemoveAt(bs, i);
    assert forall n :: 0 <= n < |after| ==> after[n] == bs[if n < i then n else n + 1];
  }

  // ---------------------------------------------------------------------
  // Binding an existing Profile
  // ---------------------------------------------------------------------

  /**
   * A call that succeeds leaves the path bound to its owner, freshly if it was
   * free, and nothing else changed; a valid owner is refused for the path exactly
   * if another one has it.
   */
  lemma BindExistingExactly(s: State, path: Path, owner: Owner, generated: Uuid, now: Time)
    ensures
      var r, before := BindExisting(s, path, owner, generated, now), BindingAt(s, path);
      && (r == Err(InvalidIdentity) <==> !ValidOwner(owner))
      && (r == Err(ProfileOwnerConflict) <==> ValidOwner(owner) && before.Some? && before.value.owner != owner)
      && (r == Err(GenerationFailed) <==>
            ValidOwner(owner) && before.None? && (!ValidUuid(generated) || RuntimeBound(s.bindings, generated)))
      && (r.Err? ==> r.error in {InvalidIdentity, ProfileOwnerConflict, GenerationFailed})
      && (r.Ok? ==>
            && r.value.operations == s.operations
            && OtherPathsKept(s, r.value, path)
            && BindingAt(r.value, path) == (if before.Some? then before else Some(Binding(owner, None, generated, now)))
            && BindingAt(r.value, path).value.owner == owner
            && (before.Some? ==> r.value == s))
  {
    var r := BindExisting(s, path, owner, generated, now);
    if r.Ok? && r.value != s {
      var x := Stored(path, Binding(owner, None, generated, now));
      PathFoundLast(s.bindings, x);
      forall other | other != path
        ensures BindingAt(r.value, other) == BindingAt(s, other)
      {
        AppendedPath(s.bindings, x, other);
      }
    }
  }

  // ---------------------------------------------------------------------
  // Reservations
  // ---------------------------------------------------------------------

  predicate ValidRequest(q: Request) {
    ValidOwner(q.owner) && ValidUuid(q.operationId) && ValidDisplayName(q.name) && ValidProfileId(q.profileId)
  }

  predicate ProfileReserved(s: State, profileId: string) {
    exists k :: 0 <= k < |s.operations| && s.operations[k].profileId == profileId
  }

  /**
   * A reservation that succeeds is on record with what was asked for, under the
   * generated runtime id if it is new, and nothing else changed; a valid request is
   * refused exactly if its operation is on record with something else, or its
   * Profile under another operation.
   */
  lemma ReserveExactly(s: State, q: Request, generated: Uuid, now: Time)
    ensures
      var r, before := Reserve(s, q, generated, now), ReservationOf(s, q.operationId);
      && (r == Err(InvalidIdentity) <==> !ValidRequest(q))
      && (r == Err(ReservationConflict) <==>
            ValidRequest(q) && if before.Some? then !Matches(before.value, q) else ProfileReserved(s, q.profileId))
      && (r == Err(GenerationFailed) <==>
            && ValidRequest(q) && before.None? && !ProfileReserved(s, q.profileId)
            && (!ValidUuid(generated) || RuntimeBound(s.bindings, generated) || RuntimeReserved(s.operations, generated)))
      && (r.Err? ==> r.error in {InvalidIdentity, ReservationConflict, GenerationFailed})
      && (r.Ok? ==>
            && r.value.bindings == s.bindings
            && OtherOperationsKept(s, r.value, q.operationId)
            && ReservationOf(r.value, q.operationId).Some? && Matches(ReservationOf(r.value, q.operationId).value, q)
            && (if before.Some? then r.value == s
                else
                  && ReservationOf(r.value, q.operationId).value.runtimeProfileId == generated
                  && ReservationOf(r.value, q.operationId).value.createdAt == now))
  {
    var r := Reserve(s, q, generated, now);
    if r.Ok? && r.value != s {
      var x := Reservation(q.operationId, q.owner, q.profileId, generated, q.name, q.activate, now);
      OperationFoundLast(s.operations, x);
      forall other | other != q.operationId
        ensures ReservationOf(r.value, other) == ReservationOf(s, other)
      {
        AppendedOperation(s.operations, x, other);
      }
    }
  }

  /**
   * Completing takes exactly the named reservation out, and is refused exactly if
   * it is another owner's or another runtime's, or its runtime is not bound to the
   * owner; completing what is not on record does nothing.
   */
  lemma CompleteExactly(s: State, operationId: Uuid, owner: Owner, runtimeProfileId: Uuid)
    requires UniqueOperations(s.operations)
    ensures
      var r, before := Complete(s, operationId, owner, runtimeProfileId), ReservationOf(s, operationId);
      var valid := ValidOwner(owner) && ValidUuid(operationId) && ValidUuid(runtimeProfileId);
      && (r == Err(InvalidIdentity) <==> !valid)
      && (r == Err(ReservationConflict) <==>
            && valid && before.Some?
            && !(before.value.owner == owner && before.value.runtimeProfileId == runtimeProfileId
                 && BoundTo(s.bindings, runtimeProfileId, owner)))
      && (r.Err? ==> r.error in {InvalidIdentity, ReservationConflict})
      && (r.Ok? ==>
            && r.value.bindings == s.bindings
            && ReservationOf(r.value, operationId) == None
            && OtherOperationsKept(s, r.value, operationId)
            && (before.None? ==> r.value == s))
  {
    var r := Complete(s, operationId, owner, runtimeProfileId);
    var k := AtOperation(s.operations, operationId);
    if r.Ok? && k < |s.operations| {
      GoneOperation(s.operations, k);
      forall other | other != operationId
        ensures ReservationOf(r.value, other) == ReservationOf(s, other)
      {
        RemovedOperation(s.operations, k, other);
      }
    }
  }

  // ---------------------------------------------------------------------
  // Installations and removal
  // ---------------------------------------------------------------------

  /** An installation goes to the path's binding alone, and only to one that has none. */
  lemma AttachExactly(s: State, path: Path, owner: Owner, installation: Uuid)
    ensures
      var r, before := Attach(s, path, owner, installation), BindingAt(s, path);
      var valid := ValidOwner(owner) && ValidUuid(installation);
      var mine := valid && before.Some? && before.value.owner == owner;
      && (r == Err(InvalidIdentity) <==> !valid)
      && (r == Err(BindingRequired) <==> valid && before.None?)
      && (r == Err(ForeignBinding) <==> valid && before.Some? && before.value.owner != owner)
      && (r == Err(AlreadyAttached) <==>
            mine && before.value.agentInstallationId.Some? && before.value.agentInstallationId != Some(installation))
      && (r == Err(InstallationTaken) <==>
            mine && before.value.agentInstallationId.None? && InstallationUsedElsewhere(s.bindings, path, installation))
      && (r.Err? ==> r.error in {InvalidIdentity, BindingRequired, ForeignBinding, AlreadyAttached, InstallationTaken})
      && (r.Ok? ==>
            && r.value.operations == s.operations
            && BindingAt(r.value, path) == Some(before.value.(agentInstallationId := Some(installation)))
            && OtherPathsKept(s, r.value, path))
  {
    var r := Attach(s, path, owner, installation);
    var i := AtPath(s.bindings, path);
    if r.Ok? && r.value != s {
      var x := Stored(path, s.bindings[i].binding.(agentInstallationId := Some(installation)));
      PathKeptAt(s.bindings, i, x);
      forall other | other != path
        ensures BindingAt(r.value, other) == BindingAt(s, other)
      {
        UpdatedPath(s.bindings, i, x, other);
      }
    }
  }

  /** Removal takes exactly the named binding out, and only as it is expected to be. */
  lemma RemoveExactly(s: State, path: Path, owner: Owner, runtimeProfileId: Uuid, installation: Option<Uuid>)
    requires UniquePaths(s.bindings)
    ensures
      var r, before := Remove(s, path, owner, runtimeProfileId, installation), BindingAt(s, path);
      var valid := ValidOwner(owner) && ValidUuid(runtimeProfileId) && (installation.Some? ==> ValidUuid(installation.value));
      && (r == Err(InvalidIdentity) <==> !valid)
      && (r == Err(RemovalRefused) <==>
            && valid && before.Some?
            && !(before.value.owner == owner && before.value.runtimeProfileId == runtimeProfileId
                 && before.value.agentInstallationId == installation))
      && (r.Err? ==> r.error in {InvalidIdentity, RemovalRefused})
      && (r.Ok? ==>
            && r.value.operations == s.operations
            && BindingAt(r.value, path) == None
            && OtherPathsKept(s, r.value, path)
            && (before.None? ==> r.value == s))
  {
    var r := Remove(s, path, owner, runtimeProfileId, installation);
    var i := AtPath(s.bindings, path);
    if r.Ok? && i < |s.bindings| {
      GonePath(s.bindings, i);
      forall other | other != path
        ensures BindingAt(r.value, other) == BindingAt(s, other)
      {
        RemovedPath(s.bindings, i, other);
      }
    }
  }

  /** Removing what a call bound gives back the bindings before it. */
  lemma RemoveUndoesBind(s: State, path: Path, owner: Owner, generated: Uuid, now: Time)
    requires BindingAt(s, path).None? && BindExisting(s, path, owner, generated, now).Ok?
    ensures Remove(BindExisting(s, path, owner, generated, now).value, path, owner, generated, None) == Ok(s)
  {
    var x := Stored(path, Binding(owner, None, generated, now));
    PathFoundLast(s.bindings, x);
    assert RemoveAt(s.bindings + [x], |s.bindings|) == s.bindings;
  }

  // ---------------------------------------------------------------------
  // Reconciliation
  // ---------------------------------------------------------------------

  /** The path is free for the reservation, or already bound to exactly its identities. */
  predicate Bindable(s: State, r: Reservation, path: Path) {
    match BindingAt(s, path)
    case None => !RuntimeBound(s.bindings, r.runtimeProfileId)
    case Some(b) => b.owner == r.owner && b.runtimeProfileId == r.runtimeProfileId
  }

  /** What a reservation binds: a fresh binding under its identities, or the one that is there. */
  function BoundBy(s: State, r: Reservation, path: Path): Binding {
    match BindingAt(s, path)
    case None => Binding(r.owner, None, r.runtimeProfileId, r.createdAt)
    case Some(b) => b
  }

  lemma BindReservedExactly(s: State, operationId: Uuid, owner: Owner, path: Path)
    ensures
      var out, r := BindReserved(s, operationId, owner, path), ReservationOf(s, operationId);
      && (out.Ok? <==> r.Some? && r.value.owner == owner && Bindable(s, r.value, path))
      && (out == Err(ReservationConflict) <==> r.None? || r.value.owner != owner)
      && (out == Err(ProfileOwnerConflict) <==>
            r.Some? && r.value.owner == owner && BindingAt(s, path).Some? && BindingAt(s, path).value.owner != owner)
      && (out.Err? ==> out.error in {ReservationConflict, ProfileOwnerConflict, RuntimeProfileConflict})
      && (out.Ok? ==>
            && out.value.operations == s.operations
            && BindingAt(out.value, path) == Some(BoundBy(s, r.value, path))
            && OtherPathsKept(s, out.value, path)
            && (out.value == s <==> BindingAt(s, path).Some?))
  {
    var out := BindReserved(s, operationId, owner, path);
    if out.Ok? && BindingAt(s, path).None? {
      var r := ReservationOf(s, operationId).value;
      var x := Stored(path, Binding(r.owner, None, r.runtimeProfileId, r.createdAt));
      PathFoundLast(s.bindings, x);
      assert |out.value.bindings| == |s.bindings| + 1;
      forall other | other != path
        ensures BindingAt(out.value, other) == BindingAt(s, other)
      {
        AppendedPath(s.bindings, x, other);
      }
    }
  }

  /** Taking the named reservation out changes no other lookup. */
  lemma SpentExactly(s: State, operationId: Uuid)
    requires UniqueOperations(s.operations) && ReservationOf(s, operationId).Some?
    ensures
      var t := s.(operations := RemoveAt(s.operations, AtOperation(s.operations, operationId)));
      && ReservationOf(t, operationId) == None && OtherOperationsKept(s, t, operationId)
      && forall path :: BindingAt(t, path) == BindingAt(s, path)
  {
    hide UniqueOperations, RemoveAt, AtPath;
    var ops := s.operations;
    var k := AtOperation(ops, operationId);
    var t := s.(operations := RemoveAt(ops, k));
    GoneOperation(ops, k);
    assert ReservationOf(t, operationId) == ReservationOf(State([], RemoveAt(ops, k)), operationId);
    forall other | other != operationId
      ensures ReservationOf(t, other) == ReservationOf(s, other)
    {
      RemovedOperation(ops, k, other);
      assert ReservationOf(t, other) == ReservationOf(State([], RemoveAt(ops, k)), other);
      assert ReservationOf(s, other) == ReservationOf(State([], ops), other);
    }
  }

  /** The part after the await can go through: the adapters do what the reservation and the path need. */
  predicate Works(s: State, r: Reservation, path: Path, a: Adapters) {
    && (BindingAt(s, path).None? ==> a.bindWritten)
    && (r.activate ==> a.activated && a.spendWritten)
  }

  /** What a reconciliation that returned has done: bound the path it reports, and spent what was made to activate. */
  ghost predicate Reconciles(t: State, r: Reservation, path: Path, out: State, reported: Stored) {
    && reported == Stored(path, BoundBy(t, r, path))
    && BindingAt(out, path) == Some(BoundBy(t, r, path))
    && OtherPathsKept(t, out, path)
    && OtherOperationsKept(t, out, r.operationId)
    && ReservationOf(out, r.operationId) == (if r.activate then None else Some(r))
  }

  /**
   * After the await, the call returns exactly if the operation is still reserved for
   * the owner, the path can be bound to it, and every write and the activation it
   * needs work; a call that fails leaves every reservation.
   */
  lemma AfterAwaitExactly(s: State, seen: Reservation, owner: Owner, a: Adapters)
    requires Accepted(s) && a.creation.Created?
    ensures
      var out, r, path := AfterAwait(s, seen, owner, a), ReservationOf(s, seen.operationId), a.creation.path;
      && (out.result.Ok? <==> r.Some? && r.value.owner == owner && Bindable(s, r.value, path) && Works(s, r.value, path, a))
      && (out.result.Ok? ==> Reconciles(s, r.value, path, out.state, out.result.value))
      && (out.result.Err? ==>
            && out.result.error in {ReservationConflict, ProfileOwnerConflict, RuntimeProfileConflict, WriteFailed, CreationFailed}
            && out.state.operations == s.operations)
  {
    hide Accepted, SpendReservation, AtPath, AtOperation, RemoveAt, OtherPathsKept, OtherOperationsKept, Bindable, BindReserved;
    var path := a.creation.path;
    BindReservedExactly(s, seen.operationId, owner, path);
    if BindReserved(s, seen.operationId, owner, path).Ok? {
      RetryFindsItsBinding(s, seen.operationId, owner, path);
      BoundAndSpent(s, BindReserved(s, seen.operationId, owner, path).value, seen.operationId, path);
    }
  }

  /** Binding leaves the reservations, and spending the one leaves the bindings. */
  lemma BoundAndSpent(s: State, bound: State, operationId: Uuid, path: Path)
    requires Accepted(s) && bound.operations == s.operations && ReservationOf(s, operationId).Some?
    requires OtherPathsKept(s, bound, path)
    ensures
      var spent := bound.(operations := RemoveAt(bound.operations, AtOperation(bound.operations, operationId)));
      && ReservationOf(spent, operationId) == None
      && OtherOperationsKept(s, spent, operationId) && OtherOperationsKept(s, bound, operationId)
      && OtherPathsKept(s, spent, path) && BindingAt(spent, path) == BindingAt(bound, path)
  {
    hide RemoveAt, AtPath, AtOperation;
    assert UniqueOperations(s.operations);
    hide Accepted, UniqueOperations;
    assert forall other :: ReservationOf(bound, other) == ReservationOf(s, other);
    SpentExactly(bound, operationId);
  }

  /**
   * Whatever runs during its await, a reconciliation returns exactly if the
   * operation is reserved for the valid owner before it, the Profile is there or
   * made and holds nothing private, and the part after the await can go through; a
   * call that fails leaves every reservation it finds after the await.
   */
  lemma ReconcileReturnsExactly(s: State, operationId: Uuid, owner: Owner, a: Adapters)
    requires Accepted(s) && FreshIds(Store(s, []), a.during)
    ensures
      var out := Reconcile(s, operationId, owner, a);
      var before := ReservationOf(s, operationId);
      var found := ValidOwner(owner) && ValidUuid(operationId) && before.Some? && before.value.owner == owner;
      var t := if a.profileExists || !found then s else Run(Store(s, []), a.during).state;
      var r := ReservationOf(t, operationId);
      && (out.result.Ok? <==>
            && found && a.creation.Created? && !a.creation.privateData
            && r.Some? && r.value.owner == owner
            && Bindable(t, r.value, a.creation.path) && Works(t, r.value, a.creation.path, a))
      && (out.result.Ok? ==> Reconciles(t, r.value, a.creation.path, out.state, out.result.value))
      && (out.result == Err(InvalidIdentity) <==> !ValidOwner(owner) || !ValidUuid(operationId))
      && (out.result == Err(ReservationRequired) <==> ValidOwner(owner) && ValidUuid(operationId) && before.None?)
      && (found && a.creation.Created? && a.creation.privateData ==> out.result == Err(PrivateDataConflict))
      && (out.result.Err? ==> out.state.operations == t.operations)
  {
    hide Accepted, Run, FreshIds, AfterAwait, Reconciles, Bindable, Works, ValidUuid, ValidOwner;
    FoundAgain(s, operationId, owner);
    RunKeepsAccepted(Store(s, []), a.during);
    var t := if a.profileExists then s else Run(Store(s, []), a.during).state;
    var found := FindReservation(s, operationId, owner);
    if found.Ok? && a.creation.Created? {
      AfterAwaitExactly(t, found.value, owner, a);
    }
  }
}
