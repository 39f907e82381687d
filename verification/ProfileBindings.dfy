/**
 * The Profile binding store: bindings and fresh-Profile reservations in one
 * durable state, the operations on it, and the reservation protocol that spans
 * the await on Profile creation.
 */
module ProfileBindings {
  import opened Wrappers

  type Uuid = string
  type Path = string
  type Time = int

  datatype Owner = Owner(tenantId: Uuid, ownerId: Uuid, deviceInstallationId: Uuid)

  datatype Binding = Binding(owner: Owner, agentInstallationId: Option<Uuid>, runtimeProfileId: Uuid, boundAt: Time)

  datatype Stored = Stored(profilePath: Path, binding: Binding)

  datatype Reservation = Reservation(
    operationId: Uuid,
    owner: Owner,
    profileId: string,
    runtimeProfileId: Uuid,
    displayName: string,
    activate: bool,
    createdAt: Time)

  datatype State = State(bindings: seq<Stored>, operations: seq<Reservation>)

  datatype StoreError =
    | InvalidIdentity
    | ProfileOwnerConflict
    | ReservationConflict
    | ReservationRequired
    | RuntimeProfileConflict
    | PrivateDataConflict
    | CreationFailed
    | GenerationFailed
    | BindingRequired
    | ForeignBinding
    | AlreadyAttached
    | InstallationTaken
    | RemovalRefused
    | WriteFailed

  // ---------------------------------------------------------------------
  // Field formats
  // ---------------------------------------------------------------------

  predicate Hex(c: char) {
    '0' <= c <= '9' || 'a' <= c <= 'f' || 'A' <= c <= 'F'
  }

  predicate AllHex(s: string) {
    forall i :: 0 <= i < |s| ==> Hex(s[i])
  }

  predicate ValidUuid(s: string) {
    && |s| == 36
    && s[8] == '-' && s[13] == '-' && s[18] == '-' && s[23] == '-'
    && AllHex(s[..8]) && AllHex(s[9..13]) && AllHex(s[14..18]) && AllHex(s[19..23]) && AllHex(s[24..])
    && '1' <= s[14] <= '5'
    && s[19] in "89abAB"
  }

  predicate ValidOwner(o: Owner) {
    ValidUuid(o.tenantId) && ValidUuid(o.ownerId) && ValidUuid(o.deviceInstallationId)
  }

  predicate ProfileIdChar(c: char) {
    'a' <= c <= 'z' || '0' <= c <= '9' || c == '_' || c == '-'
  }

  predicate ValidProfileId(s: string) {
    && s != "default" && 1 <= |s| <= 64 && s[0] != '-'
    && forall i :: 0 <= i < |s| ==> ProfileIdChar(s[i])
  }

  predicate Blank(c: char) {
    c == ' ' || c == '\t' || c == '\n' || c == '\r'
  }

  predicate ValidDisplayName(s: string) {
    |s| <= 256 && exists i :: 0 <= i < |s| && !Blank(s[i])
  }

  predicate ValidBinding(b: Binding) {
    && ValidOwner(b.owner) && ValidUuid(b.runtimeProfileId)
    && (b.agentInstallationId.Some? ==> ValidUuid(b.agentInstallationId.value))
  }

  predicate ValidReservation(r: Reservation) {
    && ValidUuid(r.operationId) && ValidOwner(r.owner) && ValidProfileId(r.profileId)
    && ValidUuid(r.runtimeProfileId) && ValidDisplayName(r.displayName)
  }

  // ---------------------------------------------------------------------
  // The states readState accepts
  // ---------------------------------------------------------------------

  predicate UniquePaths(bs: seq<Stored>) {
    forall i, j :: 0 <= i < j < |bs| ==> bs[i].profilePath != bs[j].profilePath
  }

  predicate UniqueRuntimes(bs: seq<Stored>) {
    forall i, j :: 0 <= i < j < |bs| ==> bs[i].binding.runtimeProfileId != bs[j].binding.runtimeProfileId
  }

  predicate UniqueInstallations(bs: seq<Stored>) {
    forall i, j :: 0 <= i < j < |bs| && bs[i].binding.agentInstallationId.Some? ==>
      bs[i].binding.agentInstallationId != bs[j].binding.agentInstallationId
  }

  predicate UniqueOperations(ops: seq<Reservation>) {
    forall i, j :: 0 <= i < j < |ops| ==>
      && ops[i].operationId != ops[j].operationId
      && ops[i].profileId != ops[j].profileId
      && ops[i].runtimeProfileId != ops[j].runtimeProfileId
  }

  /** A binding that carries a reserved runtime id belongs to the reservation's owner. */
  predicate OwnersAgree(bs: seq<Stored>, ops: seq<Reservation>) {
    forall i, k :: 0 <= i < |bs| && 0 <= k < |ops| && bs[i].binding.runtimeProfileId == ops[k].runtimeProfileId ==>
      bs[i].binding.owner == ops[k].owner
  }

  predicate ValidBindings(bs: seq<Stored>) {
    forall i :: 0 <= i < |bs| ==> ValidBinding(bs[i].binding)
  }

  predicate ValidReservations(ops: seq<Reservation>) {
    forall k :: 0 <= k < |ops| ==> ValidReservation(ops[k])
  }

  predicate Unique(bs: seq<Stored>) {
    UniquePaths(bs) && UniqueRuntimes(bs) && UniqueInstallations(bs)
  }

  predicate Accepted(s: State) {
    && ValidBindings(s.bindings) && ValidReservations(s.operations)
    && Unique(s.bindings)
    && UniqueOperations(s.operations)
    && OwnersAgree(s.bindings, s.operations)
  }

  const Empty: State := State([], [])

  // ---------------------------------------------------------------------
  // Operations
  // ---------------------------------------------------------------------

  function AtPath(bs: seq<Stored>, path: Path): (i: nat)
    ensures i <= |bs|
    ensures i < |bs| ==> bs[i].profilePath == path
    ensures forall k :: 0 <= k < i ==> bs[k].profilePath != path
  {
    if bs == [] || bs[0].profilePath == path then 0 else 1 + AtPath(bs[1..], path)
  }

  function AtOperation(ops: seq<Reservation>, operationId: Uuid): (i: nat)
    ensures i <= |ops|
    ensures i < |ops| ==> ops[i].operationId == operationId
    ensures forall k :: 0 <= k < i ==> ops[k].operationId != operationId
  {
    if ops == [] || ops[0].operationId == operationId then 0 else 1 + AtOperation(ops[1..], operationId)
  }

  predicate RuntimeBound(bs: seq<Stored>, runtimeProfileId: Uuid) {
    exists i :: 0 <= i < |bs| && bs[i].binding.runtimeProfileId == runtimeProfileId
  }

  predicate BoundTo(bs: seq<Stored>, runtimeProfileId: Uuid, owner: Owner) {
    exists i :: 0 <= i < |bs| && bs[i].binding.runtimeProfileId == runtimeProfileId && bs[i].binding.owner == owner
  }

  predicate RuntimeReserved(ops: seq<Reservation>, runtimeProfileId: Uuid) {
    exists k :: 0 <= k < |ops| && ops[k].runtimeProfileId == runtimeProfileId
  }

  predicate InstallationUsedElsewhere(bs: seq<Stored>, path: Path, installation: Uuid) {
    exists i :: 0 <= i < |bs| && bs[i].profilePath != path && bs[i].binding.agentInstallationId == Some(installation)
  }

  /** The binding of a path, if there is one. */
  function BindingAt(s: State, path: Path): Option<Binding> {
    var i := AtPath(s.bindings, path);
    if i < |s.bindings| then Some(s.bindings[i].binding) else None
  }

  /** The reservation of an operation, if there is one. */
  function ReservationOf(s: State, operationId: Uuid): Option<Reservation> {
    var k := AtOperation(s.operations, operationId);
    if k < |s.operations| then Some(s.operations[k]) else None
  }

  function RemoveAt<T>(xs: seq<T>, i: nat): seq<T>
    requires i < |xs|
  {
    xs[..i] + xs[i + 1..]
  }

  function BindExisting(s: State, path: Path, owner: Owner, generated: Uuid, now: Time): Result<State, StoreError> {
    if !ValidOwner(owner) then Err(InvalidIdentity)
    else
      var i := AtPath(s.bindings, path);
      if i < |s.bindings| then
        if s.bindings[i].binding.owner == owner then Ok(s) else Err(ProfileOwnerConflict)
      else if !ValidUuid(generated) || RuntimeBound(s.bindings, generated) then Err(GenerationFailed)
      else Ok(s.(bindings := s.bindings + [Stored(path, Binding(owner, None, generated, now))]))
  }

  datatype Request = Request(operationId: Uuid, name: string, owner: Owner, profileId: string, activate: bool)

  predicate Matches(r: Reservation, q: Request) {
    && r.operationId == q.operationId && r.owner == q.owner && r.profileId == q.profileId
    && r.displayName == q.name && r.activate == q.activate
  }

  function Reserve(s: State, q: Request, generated: Uuid, now: Time): Result<State, StoreError> {
    if !ValidOwner(q.owner) || !ValidUuid(q.operationId) || !ValidDisplayName(q.name) || !ValidProfileId(q.profileId) then
      Err(InvalidIdentity)
    else
      var i := AtOperation(s.operations, q.operationId);
      if i < |s.operations| then
        if Matches(s.operations[i], q) then Ok(s) else Err(ReservationConflict)
      else if exists k :: 0 <= k < |s.operations| && s.operations[k].profileId == q.profileId then Err(ReservationConflict)
      else if !ValidUuid(generated) || RuntimeBound(s.bindings, generated) || RuntimeReserved(s.operations, generated) then
        Err(GenerationFailed)
      else
        Ok(s.(operations := s.operations +
          [Reservation(q.operationId, q.owner, q.profileId, generated, q.name, q.activate, now)]))
  }

  function Complete(s: State, operationId: Uuid, owner: Owner, runtimeProfileId: Uuid): Result<State, StoreError> {
    if !ValidOwner(owner) || !ValidUuid(operationId) || !ValidUuid(runtimeProfileId) then Err(InvalidIdentity)
    else
      var i := AtOperation(s.operations, operationId);
      if i == |s.operations| then Ok(s)
      else
        var r := s.operations[i];
        if r.owner != owner || r.runtimeProfileId != runtimeProfileId || !BoundTo(s.bindings, runtimeProfileId, owner) then
          Err(ReservationConflict)
        else Ok(s.(operations := RemoveAt(s.operations, i)))
  }

  function Attach(s: State, path: Path, owner: Owner, installation: Uuid): Result<State, StoreError> {
    if !ValidOwner(owner) || !ValidUuid(installation) then Err(InvalidIdentity)
    else
      var i := AtPath(s.bindings, path);
      if i == |s.bindings| then Err(BindingRequired)
      else
        var b := s.bindings[i].binding;
        if b.owner != owner then Err(ForeignBinding)
        else if b.agentInstallationId == Some(installation) then Ok(s)
        else if b.agentInstallationId.Some? then Err(AlreadyAttached)
        else if InstallationUsedElsewhere(s.bindings, path, installation) then Err(InstallationTaken)
        else Ok(s.(bindings := s.bindings[i := Stored(path, b.(agentInstallationId := Some(installation)))]))
  }

  function Remove(s: State, path: Path, owner: Owner, runtimeProfileId: Uuid, installation: Option<Uuid>): Result<State, StoreError> {
    if !ValidOwner(owner) || !ValidUuid(runtimeProfileId) || (installation.Some? && !ValidUuid(installation.value)) then
      Err(InvalidIdentity)
    else
      var i := AtPath(s.bindings, path);
      if i == |s.bindings| then Ok(s)
      else
        var b := s.bindings[i].binding;
        if b.owner != owner || b.runtimeProfileId != runtimeProfileId || b.agentInstallationId != installation then
          Err(RemovalRefused)
        else Ok(s.(bindings := RemoveAt(s.bindings, i)))
  }

  /** reconcileFreshProfile up to the await. */
  function FindReservation(s: State, operationId: Uuid, owner: Owner): Result<Reservation, StoreError> {
    if !ValidOwner(owner) || !ValidUuid(operationId) then Err(InvalidIdentity)
    else
      var i := AtOperation(s.operations, operationId);
      if i == |s.operations| then Err(ReservationRequired)
      else if s.operations[i].owner != owner then Err(ReservationConflict)
      else Ok(s.operations[i])
  }

  /** reconcileFreshProfile after the await: the binding under the reserved identities. */
  function BindReserved(s: State, operationId: Uuid, owner: Owner, path: Path): (r: Result<State, StoreError>)
    ensures r.Ok? ==> AtOperation(s.operations, operationId) < |s.operations|
    ensures r.Ok? ==> AtPath(r.value.bindings, path) < |r.value.bindings|
  {
    var k := AtOperation(s.operations, operationId);
    if k == |s.operations| || s.operations[k].owner != owner then Err(ReservationConflict)
    else
      var r := s.operations[k];
      var i := AtPath(s.bindings, path);
      if i < |s.bindings| then
        if s.bindings[i].binding.owner != owner then Err(ProfileOwnerConflict)
        else if s.bindings[i].binding.runtimeProfileId != r.runtimeProfileId then Err(RuntimeProfileConflict)
        else Ok(s)
      else if RuntimeBound(s.bindings, r.runtimeProfileId) then Err(RuntimeProfileConflict)
      else
        var bs := s.bindings + [Stored(path, Binding(r.owner, None, r.runtimeProfileId, r.createdAt))];
        assert bs[|s.bindings|].profilePath == path;
        Ok(s.(bindings := bs))
  }

  /** reconcileFreshProfile after activation: the reservation is spent. */
  function SpendReservation(s: State, r: Reservation, owner: Owner, path: Path): Result<State, StoreError> {
    var k := AtOperation(s.operations, r.operationId);
    var i := AtPath(s.bindings, path);
    if k == |s.operations| then Err(ReservationConflict)
    else if s.operations[k].owner != owner || s.operations[k].runtimeProfileId != r.runtimeProfileId
            || i == |s.bindings| || s.bindings[i].binding.owner != owner
            || s.bindings[i].binding.runtimeProfileId != r.runtimeProfileId then Err(ReservationConflict)
    else Ok(s.(operations := RemoveAt(s.operations, k)))
  }

  // ---------------------------------------------------------------------
  // Every operation keeps the state acceptable
  // ---------------------------------------------------------------------

  /** Every element of the left list is one of the right list, in the same order. */
  ghost predicate Drops<T>(after: seq<T>, before: seq<T>, i: nat) {
    |before| == |after| + 1 && i <= |after| && forall n :: 0 <= n < |after| ==> after[n] == before[if n < i then n else n + 1]
  }

  lemma RemoveAtDrops<T>(xs: seq<T>, i: nat)
    requires i < |xs|
    ensures Drops(RemoveAt(xs, i), xs, i)
  {
  }

  lemma AppendUnique(bs: seq<Stored>, x: Stored)
    requires Unique(bs) && x.binding.agentInstallationId.None?
    requires AtPath(bs, x.profilePath) == |bs| && !RuntimeBound(bs, x.binding.runtimeProfileId)
    ensures Unique(bs + [x])
  {
  }

  lemma AppendAgrees(bs: seq<Stored>, ops: seq<Reservation>, x: Stored)
    requires OwnersAgree(bs, ops)
    requires forall k :: 0 <= k < |ops| && ops[k].runtimeProfileId == x.binding.runtimeProfileId ==> ops[k].owner == x.binding.owner
    ensures OwnersAgree(bs + [x], ops)
  {
  }

  lemma AddBindingAccepted(s: State, path: Path, b: Binding)
    requires Accepted(s) && ValidBinding(b) && b.agentInstallationId.None?
    requires AtPath(s.bindings, path) == |s.bindings| && !RuntimeBound(s.bindings, b.runtimeProfileId)
    requires forall k :: 0 <= k < |s.operations| && s.operations[k].runtimeProfileId == b.runtimeProfileId ==>
      s.operations[k].owner == b.owner
    ensures Accepted(s.(bindings := s.bindings + [Stored(path, b)]))
  {
    AppendUnique(s.bindings, Stored(path, b));
    AppendAgrees(s.bindings, s.operations, Stored(path, b));
  }

  lemma DropOperationAccepted(bs: seq<Stored>, before: seq<Reservation>, after: seq<Reservation>, k: nat)
    requires Drops(after, before, k)
    requires UniqueOperations(before) && OwnersAgree(bs, before)
    ensures UniqueOperations(after) && OwnersAgree(bs, after)
  {
  }

  lemma RemoveOperationAccepted(s: State, k: nat)
    requires Accepted(s) && k < |s.operations|
    ensures Accepted(s.(operations := RemoveAt(s.operations, k)))
  {
    RemoveAtDrops(s.operations, k);
    DropOperationAccepted(s.bindings, s.operations, RemoveAt(s.operations, k), k);
  }

  lemma DropBindingAccepted(before: seq<Stored>, after: seq<Stored>, ops: seq<Reservation>, i: nat)
    requires Drops(after, before, i)
    requires Unique(before) && OwnersAgree(before, ops)
    ensures Unique(after) && OwnersAgree(after, ops)
  {
  }

  lemma RemoveBindingAccepted(s: State, i: nat)
    requires Accepted(s) && i < |s.bindings|
    ensures Accepted(s.(bindings := RemoveAt(s.bindings, i)))
  {
    RemoveAtDrops(s.bindings, i);
    DropBindingAccepted(s.bindings, RemoveAt(s.bindings, i), s.operations, i);
  }

  lemma AppendOperation(bs: seq<Stored>, ops: seq<Reservation>, r: Reservation)
    requires UniqueOperations(ops) && OwnersAgree(bs, ops)
    requires AtOperation(ops, r.operationId) == |ops|
    requires forall k :: 0 <= k < |ops| ==> ops[k].profileId != r.profileId
    requires !RuntimeBound(bs, r.runtimeProfileId) && !RuntimeReserved(ops, r.runtimeProfileId)
    ensures UniqueOperations(ops + [r]) && OwnersAgree(bs, ops + [r])
  {
  }

  lemma ReserveAccepted(s: State, q: Request, generated: Uuid, now: Time)
    requires Accepted(s) && Reserve(s, q, generated, now).Ok?
    ensures Accepted(Reserve(s, q, generated, now).value)
  {
    if AtOperation(s.operations, q.operationId) == |s.operations| {
      AppendOperation(s.bindings, s.operations,
        Reservation(q.operationId, q.owner, q.profileId, generated, q.name, q.activate, now));
    }
  }

  lemma InstallUnique(bs: seq<Stored>, i: nat, installation: Uuid)
    requires Unique(bs) && i < |bs| && !InstallationUsedElsewhere(bs, bs[i].profilePath, installation)
    ensures Unique(bs[i := Stored(bs[i].profilePath, bs[i].binding.(agentInstallationId := Some(installation)))])
  {
    forall k | 0 <= k < |bs| && k != i ensures bs[k].binding.agentInstallationId != Some(installation) {
      assert bs[k].profilePath != bs[i].profilePath;
    }
  }

  lemma AttachAccepted(s: State, path: Path, owner: Owner, installation: Uuid)
    requires Accepted(s) && Attach(s, path, owner, installation).Ok?
    ensures Accepted(Attach(s, path, owner, installation).value)
  {
    var i := AtPath(s.bindings, path);
    if Attach(s, path, owner, installation).value != s {
      InstallUnique(s.bindings, i, installation);
    }
  }

  /**
   * Binding an existing Profile does not look at pending reservations, so its
   * result is acceptable exactly when the generated runtime id is not reserved
   * for another owner.
   */
  lemma BindExistingAcceptedExactly(s: State, path: Path, owner: Owner, generated: Uuid, now: Time)
    requires Accepted(s) && BindExisting(s, path, owner, generated, now).Ok?
    ensures Accepted(BindExisting(s, path, owner, generated, now).value) <==>
      || AtPath(s.bindings, path) < |s.bindings|
      || forall k :: 0 <= k < |s.operations| && s.operations[k].runtimeProfileId == generated ==> s.operations[k].owner == owner
  {
    if AtPath(s.bindings, path) == |s.bindings| {
      var b := Binding(owner, None, generated, now);
      if forall k :: 0 <= k < |s.operations| && s.operations[k].runtimeProfileId == generated ==> s.operations[k].owner == owner {
        AddBindingAccepted(s, path, b);
      } else {
        var t := BindExisting(s, path, owner, generated, now).value;
        assert t.bindings[|s.bindings|] == Stored(path, b);
      }
    }
  }

  // ---------------------------------------------------------------------
  // The reservation protocol
  // ---------------------------------------------------------------------

  /** A reconcileFreshProfile call: awaiting the Profile's creation, or activating it. */
  datatype Task =
    | AwaitingCreation(operationId: Uuid, owner: Owner, seen: Reservation)
    | Activating(owner: Owner, path: Path, seen: Reservation)
    | Finished

  /** The durable state and the calls in flight, which a crash drops. */
  datatype Store = Store(state: State, tasks: seq<Task>)

  const Fresh: Store := Store(Empty, [])

  /** How the created Profile looks: `path` is its canonical path. */
  datatype Creation = Created(path: Path, privateData: bool) | NotCreated

  /** `written` is false when the encrypted write fails; the state then stays. */
  datatype Event =
    | Bound(path: Path, owner: Owner, generated: Uuid, now: Time, written: bool)
    | Reserved(request: Request, generated: Uuid, now: Time, written: bool)
    | Completed(operationId: Uuid, owner: Owner, runtimeProfileId: Uuid, written: bool)
    | Attached(path: Path, owner: Owner, installation: Uuid, written: bool)
    | Removed(path: Path, owner: Owner, runtimeProfileId: Uuid, expected: Option<Uuid>, written: bool)
    | ReconcileCalled(operationId: Uuid, owner: Owner)
    | CreationAnswered(task: nat, creation: Creation, written: bool)
    | ActivationAnswered(task: nat, activated: bool, written: bool)
    | Crashed

  function Write(s: State, r: Result<State, StoreError>, written: bool): State {
    if r.Ok? && written then r.value else s
  }

  /** After the await: bind under the reserved identities, then activate if asked to. */
  function AnswerCreation(s: Store, n: nat, creation: Creation, written: bool): Store
    requires n < |s.tasks| && s.tasks[n].AwaitingCreation?
  {
    var t := s.tasks[n];
    var finished := s.(tasks := s.tasks[n := Finished]);
    if creation.NotCreated? || creation.privateData then finished
    else
      var bound := BindReserved(s.state, t.operationId, t.owner, creation.path);
      if bound.Err? || (bound.value != s.state && !written) then finished
      else
        var r := s.state.operations[AtOperation(s.state.operations, t.operationId)];
        Store(bound.value, s.tasks[n := if r.activate then Activating(t.owner, creation.path, r) else Finished])
  }

  function AnswerActivation(s: Store, n: nat, activated: bool, written: bool): Store
    requires n < |s.tasks| && s.tasks[n].Activating?
  {
    var t := s.tasks[n];
    Store(if activated then Write(s.state, SpendReservation(s.state, t.seen, t.owner, t.path), written) else s.state,
          s.tasks[n := Finished])
  }

  function Step(s: Store, e: Event): Store {
    match e
    case Bound(path, owner, generated, now, written) =>
      s.(state := Write(s.state, BindExisting(s.state, path, owner, generated, now), written))
    case Reserved(request, generated, now, written) =>
      s.(state := Write(s.state, Reserve(s.state, request, generated, now), written))
    case Completed(operationId, owner, runtimeProfileId, written) =>
      s.(state := Write(s.state, Complete(s.state, operationId, owner, runtimeProfileId), written))
    case Attached(path, owner, installation, written) =>
      s.(state := Write(s.state, Attach(s.state, path, owner, installation), written))
    case Removed(path, owner, runtimeProfileId, expected, written) =>
      s.(state := Write(s.state, Remove(s.state, path, owner, runtimeProfileId, expected), written))
    case ReconcileCalled(operationId, owner) =>
      (match FindReservation(s.state, operationId, owner)
       case Err(_) => s
       case Ok(r) => s.(tasks := s.tasks + [AwaitingCreation(operationId, owner, r)]))
    case CreationAnswered(n, creation, written) =>
      if n < |s.tasks| && s.tasks[n].AwaitingCreation? then AnswerCreation(s, n, creation, written) else s
    case ActivationAnswered(n, activated, written) =>
      if n < |s.tasks| && s.tasks[n].Activating? then AnswerActivation(s, n, activated, written) else s
    case Crashed => s.(tasks := [])
  }

  /** Generated ids miss the pending reservations. */
  predicate FreshId(s: State, e: Event) {
    e.Bound? ==> !RuntimeReserved(s.operations, e.generated)
  }

  lemma BoundAccepted(s: State, path: Path, owner: Owner, generated: Uuid, now: Time)
    requires Accepted(s) && !RuntimeReserved(s.operations, generated)
    requires BindExisting(s, path, owner, generated, now).Ok?
    ensures Accepted(BindExisting(s, path, owner, generated, now).value)
  {
    BindExistingAcceptedExactly(s, path, owner, generated, now);
  }

  lemma BindReservedAccepted(s: State, operationId: Uuid, owner: Owner, path: Path)
    requires Accepted(s) && BindReserved(s, operationId, owner, path).Ok?
    ensures Accepted(BindReserved(s, operationId, owner, path).value)
  {
    hide OwnersAgree, UniqueInstallations, ValidBindings, UniquePaths, UniqueRuntimes;
    if AtPath(s.bindings, path) == |s.bindings| {
      var k := AtOperation(s.operations, operationId);
      var r := s.operations[k];
      assert ValidReservation(r);
      assert forall n :: 0 <= n < |s.operations| && s.operations[n].runtimeProfileId == r.runtimeProfileId ==> n == k;
      AddBindingAccepted(s, path, Binding(r.owner, None, r.runtimeProfileId, r.createdAt));
    }
  }

  lemma CompleteAccepted(s: State, operationId: Uuid, owner: Owner, runtimeProfileId: Uuid)
    requires Accepted(s) && Complete(s, operationId, owner, runtimeProfileId).Ok?
    ensures Accepted(Complete(s, operationId, owner, runtimeProfileId).value)
  {
    hide Accepted, AtOperation, BoundTo, ValidOwner, ValidUuid, RemoveAt;
    var k := AtOperation(s.operations, operationId);
    if k < |s.operations| {
      RemoveOperationAccepted(s, k);
    }
  }

  lemma RemoveAccepted(s: State, path: Path, owner: Owner, runtimeProfileId: Uuid, installation: Option<Uuid>)
    requires Accepted(s) && Remove(s, path, owner, runtimeProfileId, installation).Ok?
    ensures Accepted(Remove(s, path, owner, runtimeProfileId, installation).value)
  {
    hide Accepted, AtPath, ValidOwner, ValidUuid, RemoveAt;
    var i := AtPath(s.bindings, path);
    if i < |s.bindings| {
      RemoveBindingAccepted(s, i);
    }
  }

  lemma SpendAccepted(s: State, r: Reservation, owner: Owner, path: Path)
    requires Accepted(s) && SpendReservation(s, r, owner, path).Ok?
    ensures Accepted(SpendReservation(s, r, owner, path).value)
  {
    hide Accepted, AtOperation, AtPath, RemoveAt;
    RemoveOperationAccepted(s, AtOperation(s.operations, r.operationId));
  }

  lemma CreationAccepted(s: Store, n: nat, creation: Creation, written: bool)
    requires Accepted(s.state) && n < |s.tasks| && s.tasks[n].AwaitingCreation?
    ensures Accepted(AnswerCreation(s, n, creation, written).state)
  {
    hide Accepted, AtOperation, BindReserved;
    var t := s.tasks[n];
    if creation.Created? && BindReserved(s.state, t.operationId, t.owner, creation.path).Ok? {
      BindReservedAccepted(s.state, t.operationId, t.owner, creation.path);
    }
  }

  lemma ActivationAccepted(s: Store, n: nat, activated: bool, written: bool)
    requires Accepted(s.state) && n < |s.tasks| && s.tasks[n].Activating?
    ensures Accepted(AnswerActivation(s, n, activated, written).state)
  {
    hide Accepted, SpendReservation;
    var t := s.tasks[n];
    if SpendReservation(s.state, t.seen, t.owner, t.path).Ok? {
      SpendAccepted(s.state, t.seen, t.owner, t.path);
    }
  }

  /** Every operation maps an accepted state to an accepted state. */
  lemma StepAccepted(s: Store, e: Event)
    requires Accepted(s.state) && FreshId(s.state, e)
    ensures Accepted(Step(s, e).state)
  {
    hide Accepted, BindExisting, Reserve, Complete, Attach, Remove, FindReservation, AnswerCreation, AnswerActivation,
      RuntimeReserved;
    match e
    case Bound(path, owner, generated, now, _) =>
      if BindExisting(s.state, path, owner, generated, now).Ok? { BoundAccepted(s.state, path, owner, generated, now); }
    case Reserved(request, generated, now, _) =>
      if Reserve(s.state, request, generated, now).Ok? { ReserveAccepted(s.state, request, generated, now); }
    case Completed(operationId, owner, runtimeProfileId, _) =>
      if Complete(s.state, operationId, owner, runtimeProfileId).Ok? {
        CompleteAccepted(s.state, operationId, owner, runtimeProfileId);
      }
    case Attached(path, owner, installation, _) =>
      if Attach(s.state, path, owner, installation).Ok? { AttachAccepted(s.state, path, owner, installation); }
    case Removed(path, owner, runtimeProfileId, expected, _) =>
      if Remove(s.state, path, owner, runtimeProfileId, expected).Ok? {
        RemoveAccepted(s.state, path, owner, runtimeProfileId, expected);
      }
    case ReconcileCalled(_, _) =>
    case CreationAnswered(n, creation, written) =>
      if n < |s.tasks| && s.tasks[n].AwaitingCreation? { CreationAccepted(s, n, creation, written); }
    case ActivationAnswered(n, activated, written) =>
      if n < |s.tasks| && s.tasks[n].Activating? { ActivationAccepted(s, n, activated, written); }
    case Crashed =>
  }

  // ---------------------------------------------------------------------
  // Main results
  // ---------------------------------------------------------------------

  function Run(s: Store, es: seq<Event>): Store {
    if es == [] then s else Step(Run(s, es[..|es| - 1]), es[|es| - 1])
  }

  predicate FreshIds(s: Store, es: seq<Event>) {
    es == [] || (FreshIds(s, es[..|es| - 1]) && FreshId(Run(s, es[..|es| - 1]).state, es[|es| - 1]))
  }

  /** Any interleaving of operations, failed writes and crashes leaves a state readState accepts. */
  lemma {:induction false} RunAccepted(es: seq<Event>)
    requires FreshIds(Fresh, es)
    ensures Accepted(Run(Fresh, es).state)
  {
    if es != [] {
      RunAccepted(es[..|es| - 1]);
      StepAccepted(Run(Fresh, es[..|es| - 1]), es[|es| - 1]);
    }
  }

  lemma RemoveAtKeeps<T>(xs: seq<T>, i: nat, x: T)
    requires i < |xs| && x in xs && x != xs[i]
    ensures x in RemoveAt(xs, i)
  {
    var n :| 0 <= n < |xs| && xs[n] == x;
    assert RemoveAt(xs, i)[if n < i then n else n - 1] == x;
  }

  /** Spending an operation keeps every other reservation and drops its id. */
  lemma SpentOrKept(ops: seq<Reservation>, k: nat, r: Reservation)
    requires UniqueOperations(ops) && k < |ops| && r in ops
    ensures r in RemoveAt(ops, k) ||
      (r == ops[k] && forall q :: q in RemoveAt(ops, k) ==> q.operationId != r.operationId)
  {
    RemoveAtDrops(ops, k);
    if r != ops[k] {
      RemoveAtKeeps(ops, k, r);
    }
  }

  lemma CompleteLifecycle(s: State, operationId: Uuid, owner: Owner, runtimeProfileId: Uuid, r: Reservation)
    requires UniqueOperations(s.operations) && r in s.operations
    requires Complete(s, operationId, owner, runtimeProfileId).Ok?
    ensures Survives(r, Complete(s, operationId, owner, runtimeProfileId).value)
  {
    var k := AtOperation(s.operations, operationId);
    if k < |s.operations| { SpentOrKept(s.operations, k, r); }
  }

  lemma SpendLifecycle(s: State, seen: Reservation, owner: Owner, path: Path, r: Reservation)
    requires UniqueOperations(s.operations) && r in s.operations
    requires SpendReservation(s, seen, owner, path).Ok?
    ensures Survives(r, SpendReservation(s, seen, owner, path).value)
  {
    SpentOrKept(s.operations, AtOperation(s.operations, seen.operationId), r);
  }

  /** Events that neither complete nor activate leave every reservation in place. */
  lemma GrownSurvives(before: seq<Reservation>, after: State, r: Reservation)
    requires r in before && before <= after.operations
    ensures Survives(r, after)
  {
    var i :| 0 <= i < |before| && before[i] == r;
    assert after.operations[i] == r;
  }

  lemma OperationsOnlyGrow(s: Store, e: Event)
    requires !e.Completed? && !e.ActivationAnswered?
    ensures s.state.operations <= Step(s, e).state.operations
  {
  }

  /** The reservation is still there, or its runtime id is bound to its owner and its id is gone. */
  predicate Survives(r: Reservation, t: State) {
    || r in t.operations
    || (BoundTo(t.bindings, r.runtimeProfileId, r.owner)
        && forall q :: q in t.operations ==> q.operationId != r.operationId)
  }

  /**
   * A reservation keeps all its identities until it disappears, and it
   * disappears only in a step whose state binds its runtime id to its owner.
   */
  lemma ReservationLifecycle(s: Store, e: Event, r: Reservation)
    requires Accepted(s.state) && r in s.state.operations
    ensures Survives(r, Step(s, e).state)
  {
    hide Complete, SpendReservation, Survives, BindExisting, Reserve, Attach, Remove, AnswerCreation, OwnersAgree,
      UniqueRuntimes, UniqueInstallations, UniquePaths, ValidBindings, ValidReservations, UniqueOperations;
    GrownSurvives(s.state.operations, s.state, r);
    match e
    case Completed(operationId, owner, runtimeProfileId, written) =>
      if Complete(s.state, operationId, owner, runtimeProfileId).Ok? {
        CompleteLifecycle(s.state, operationId, owner, runtimeProfileId, r);
      }
    case ActivationAnswered(n, _, _) =>
      if n < |s.tasks| && s.tasks[n].Activating? {
        var t := s.tasks[n];
        if SpendReservation(s.state, t.seen, t.owner, t.path).Ok? {
          SpendLifecycle(s.state, t.seen, t.owner, t.path, r);
        }
      }
    case _ =>
      OperationsOnlyGrow(s, e);
      GrownSurvives(s.state.operations, Step(s, e).state, r);
  }

  /** After every run, at most one binding carries a reserved runtime id, and it has the reservation's owner. */
  lemma ReservedRuntimeIsUnambiguous(es: seq<Event>, r: Reservation, i: nat, j: nat)
    requires FreshIds(Fresh, es) && r in Run(Fresh, es).state.operations
    ensures
      var bindings := Run(Fresh, es).state.bindings;
      && i < |bindings| && bindings[i].binding.runtimeProfileId == r.runtimeProfileId
      && j < |bindings| && bindings[j].binding.runtimeProfileId == r.runtimeProfileId
      ==> i == j && bindings[i].binding.owner == r.owner
  {
    hide Step, FreshIds, Run;
    RunAccepted(es);
    var s := Run(Fresh, es).state;
    var k :| 0 <= k < |s.operations| && s.operations[k] == r;
  }

  predicate SameIdentity(x: Stored, y: Stored) {
    x.profilePath == y.profilePath && x.binding.owner == y.binding.owner
      && x.binding.runtimeProfileId == y.binding.runtimeProfileId
  }

  /** Only a removal takes a binding out; the others keep its place and identity. */
  lemma BindingsKeepPlace(s: Store, e: Event, i: nat)
    requires i < |s.state.bindings| && !e.Removed?
    ensures i < |Step(s, e).state.bindings| && SameIdentity(Step(s, e).state.bindings[i], s.state.bindings[i])
  {
  }

  /** A bound path keeps its owner and runtime id until its binding is removed. */
  lemma BoundPathKeepsIdentity(s: Store, e: Event, i: nat)
    requires Accepted(s.state) && i < |s.state.bindings|
    ensures var x := s.state.bindings[i]; var bs := Step(s, e).state.bindings;
      || (e.Removed? && e.path == x.profilePath)
      || exists j :: 0 <= j < |bs| && SameIdentity(bs[j], x)
  {
    hide OwnersAgree, UniqueInstallations, ValidBindings, ValidReservations, UniqueRuntimes, BindExisting, Reserve,
      Complete, Attach, FindReservation, AnswerCreation, AnswerActivation, ValidOwner, ValidUuid;
    var bs := Step(s, e).state.bindings;
    if e.Removed? {
      var k := AtPath(s.state.bindings, e.path);
      if k < |s.state.bindings| && e.path != s.state.bindings[i].profilePath {
        RemoveAtKeeps(s.state.bindings, k, s.state.bindings[i]);
      }
    } else {
      BindingsKeepPlace(s, e, i);
    }
  }

  /**
   * A call that crashed after its binding was written can be repeated: the
   * retry at the same path finds its own binding and changes nothing.
   */
  lemma RetryFindsItsBinding(s: State, operationId: Uuid, owner: Owner, path: Path)
    requires Accepted(s) && BindReserved(s, operationId, owner, path).Ok?
    ensures var t := BindReserved(s, operationId, owner, path).value;
      var r := s.operations[AtOperation(s.operations, operationId)];
      && t.operations == s.operations
      && BoundTo(t.bindings, r.runtimeProfileId, r.owner)
      && BindReserved(t, operationId, owner, path) == Ok(t)
      && SpendReservation(t, r, owner, path) == Ok(t.(operations := RemoveAt(t.operations, AtOperation(t.operations, operationId))))
  {
    hide OwnersAgree, UniqueInstallations, ValidBindings, ValidReservations;
    var t := BindReserved(s, operationId, owner, path).value;
    var i := AtPath(t.bindings, path);
    if AtPath(s.bindings, path) == |s.bindings| {
      assert t.bindings[|s.bindings|].profilePath == path;
      assert i == |s.bindings|;
    }
  }

  predicate HasOperation(s: State, operationId: Uuid) {
    AtOperation(s.operations, operationId) < |s.operations|
  }

  lemma {:induction false} RunKeepsAccepted(s: Store, es: seq<Event>)
    requires Accepted(s.state) && FreshIds(s, es)
    ensures Accepted(Run(s, es).state)
  {
    if es != [] {
      RunKeepsAccepted(s, es[..|es| - 1]);
      StepAccepted(Run(s, es[..|es| - 1]), es[|es| - 1]);
    }
  }

  /**
   * As long as its operation id stays in the store, a reservation is the very
   * same record, across awaits, failed writes, crashes and retries.
   */
  lemma {:induction false} ReservationFixedWhileItExists(s: Store, es: seq<Event>, r: Reservation)
    requires Accepted(s.state) && FreshIds(s, es) && r in s.state.operations
    requires forall n :: 0 <= n <= |es| ==> HasOperation(Run(s, es[..n]).state, r.operationId)
    ensures r in Run(s, es).state.operations
  {
    if es != [] {
      var before := es[..|es| - 1];
      forall n | 0 <= n <= |before| ensures HasOperation(Run(s, before[..n]).state, r.operationId) {
        assert before[..n] == es[..n];
      }
      ReservationFixedWhileItExists(s, before, r);
      RunKeepsAccepted(s, before);
      ReservationLifecycle(Run(s, before), es[|es| - 1], r);
      assert es[..|es|] == es;
      var t := Run(s, es).state;
      assert HasOperation(t, r.operationId);
      assert t.operations[AtOperation(t.operations, r.operationId)].operationId == r.operationId;
    }
  }

  // ---------------------------------------------------------------------
  // One reconciliation, with everything that runs during its await
  // ---------------------------------------------------------------------

  datatype Reconciled = Reconciled(state: State, result: Result<Stored, StoreError>)

  /** What the adapters of one reconciliation answer; `during` runs while createProfile is awaited. */
  datatype Adapters = Adapters(profileExists: bool, during: seq<Event>, creation: Creation, activated: bool, bindWritten: bool, spendWritten: bool)

  function AfterAwait(s: State, r: Reservation, owner: Owner, a: Adapters): Reconciled
    requires a.creation.Created?
  {
    match BindReserved(s, r.operationId, owner, a.creation.path)
    case Err(e) => Reconciled(s, Err(e))
    case Ok(bound) =>
      var current := s.operations[AtOperation(s.operations, r.operationId)];
      var stored := bound.bindings[AtPath(bound.bindings, a.creation.path)];
      if bound != s && !a.bindWritten then Reconciled(s, Err(WriteFailed))
      else if !current.activate then Reconciled(bound, Ok(stored))
      else if !a.activated then Reconciled(bound, Err(CreationFailed))
      else
        match SpendReservation(bound, current, owner, a.creation.path)
        case Err(e) => Reconciled(bound, Err(e))
        case Ok(spent) => if a.spendWritten then Reconciled(spent, Ok(stored)) else Reconciled(bound, Err(WriteFailed))
  }

  function Reconcile(s: State, operationId: Uuid, owner: Owner, a: Adapters): Reconciled {
    match FindReservation(s, operationId, owner)
    case Err(e) => Reconciled(s, Err(e))
    case Ok(r) =>
      var s := if a.profileExists then s else Run(Store(s, []), a.during).state;
      if a.creation.NotCreated? then Reconciled(s, Err(CreationFailed))
      else if a.creation.privateData then Reconciled(s, Err(PrivateDataConflict))
      else AfterAwait(s, r, owner, a)
  }

  /** The binding is the reservation's, and the reservation is spent exactly if it activates. */
  predicate BindsReserved(s: State, operationId: Uuid, owner: Owner, path: Path, out: Reconciled) {
    var k := AtOperation(s.operations, operationId);
    && k < |s.operations| && s.operations[k].owner == owner
    && out.result.Ok?
    && out.result.value.profilePath == path
    && out.result.value.binding.owner == owner
    && out.result.value.binding.runtimeProfileId == s.operations[k].runtimeProfileId
    && out.result.value in out.state.bindings
    && out.state.operations == if s.operations[k].activate then RemoveAt(s.operations, k) else s.operations
  }

  lemma AfterAwaitBinds(s: State, r: Reservation, owner: Owner, a: Adapters)
    requires Accepted(s) && a.creation.Created? && AfterAwait(s, r, owner, a).result.Ok?
    ensures BindsReserved(s, r.operationId, owner, a.creation.path, AfterAwait(s, r, owner, a))
  {
    var bound := BindReserved(s, r.operationId, owner, a.creation.path).value;
    assert bound.bindings[AtPath(bound.bindings, a.creation.path)] in bound.bindings;
    RetryFindsItsBinding(s, r.operationId, owner, a.creation.path);
  }

  lemma AfterAwaitAccepted(s: State, r: Reservation, owner: Owner, a: Adapters)
    requires Accepted(s) && a.creation.Created?
    ensures Accepted(AfterAwait(s, r, owner, a).state)
  {
    hide Accepted, BindReserved, SpendReservation, AtOperation, AtPath;
    if BindReserved(s, r.operationId, owner, a.creation.path).Ok? {
      BindReservedAccepted(s, r.operationId, owner, a.creation.path);
      var bound := BindReserved(s, r.operationId, owner, a.creation.path).value;
      var current := s.operations[AtOperation(s.operations, r.operationId)];
      if SpendReservation(bound, current, owner, a.creation.path).Ok? {
        SpendAccepted(bound, current, owner, a.creation.path);
      }
    }
  }

  lemma FoundAgain(s: State, operationId: Uuid, owner: Owner)
    ensures
      var found := FindReservation(s, operationId, owner);
      found.Ok? ==> found.value.operationId == operationId
  {
  }

  /**
   * Whatever runs during the await, a reconciliation that returns has bound the
   * path it reports to the identities reserved for the operation.
   */
  lemma ReconcileBindsReservedIdentity(s: State, operationId: Uuid, owner: Owner, a: Adapters)
    requires Accepted(s) && FreshIds(Store(s, []), a.during)
    ensures Accepted(Reconcile(s, operationId, owner, a).state)
    ensures Reconcile(s, operationId, owner, a).result.Ok? ==>
      BindsReserved(if a.profileExists then s else Run(Store(s, []), a.during).state, operationId, owner,
                    if a.creation.Created? then a.creation.path else "", Reconcile(s, operationId, owner, a))
  {
    hide Accepted, AfterAwait, BindsReserved, FreshIds, Run;
    RunKeepsAccepted(Store(s, []), a.during);
    FoundAgain(s, operationId, owner);
    var during := if a.profileExists then s else Run(Store(s, []), a.during).state;
    var found := FindReservation(s, operationId, owner);
    if found.Ok? && a.creation.Created? && !a.creation.privateData {
      AfterAwaitAccepted(during, found.value, owner, a);
      if AfterAwait(during, found.value, owner, a).result.Ok? {
        AfterAwaitBinds(during, found.value, owner, a);
      }
    }
  }

  // ---------------------------------------------------------------------
  // Looking up by path and by operation
  // ---------------------------------------------------------------------

  lemma {:induction false} PathFoundLast(bs: seq<Stored>, x: Stored)
    requires AtPath(bs, x.profilePath) == |bs|
    ensures AtPath(bs + [x], x.profilePath) == |bs|
  {
    if bs != [] {
      assert (bs + [x])[1..] == bs[1..] + [x];
      PathFoundLast(bs[1..], x);
    }
  }

  lemma {:induction false} OperationFoundLast(ops: seq<Reservation>, x: Reservation)
    requires AtOperation(ops, x.operationId) == |ops|
    ensures AtOperation(ops + [x], x.operationId) == |ops|
  {
    if ops != [] {
      assert (ops + [x])[1..] == ops[1..] + [x];
      OperationFoundLast(ops[1..], x);
    }
  }

  lemma {:induction false} PathKeptAt(bs: seq<Stored>, i: nat, x: Stored)
    requires i < |bs| && AtPath(bs, x.profilePath) == i
    ensures AtPath(bs[i := x], x.profilePath) == i
  {
    if i > 0 {
      assert bs[i := x][1..] == bs[1..][i - 1 := x];
      PathKeptAt(bs[1..], i - 1, x);
    }
  }

  // ---------------------------------------------------------------------
  // The store object
  // ---------------------------------------------------------------------

  /** `file` is the decrypted content of the bindings file. */
  class AgenteraProfileBindingStore {
    var file: State

    constructor ()
      ensures file == Empty
    {
      file := Empty;
    }

    /** An encrypted write replaces the file as a whole or throws. */
    method PersistState(next: State, written: bool) returns (error: Option<StoreError>)
      modifies this
      ensures file == if written then next else old(file)
      ensures error == if written then None else Some(WriteFailed)
    {
      if !written { return Some(WriteFailed); }
      file := next;
      error := None;
    }

    ghost predicate Answers(before: State, asked: Result<State, StoreError>, written: bool, error: Option<StoreError>)
      reads this
    {
      && file == Write(before, asked, written)
      && (error.None? <==> asked.Ok? && (asked.value == before || written))
      && (asked.Err? ==> error == Some(asked.error))
    }

    method BindExistingProfile(path: Path, owner: Owner, generated: Uuid, now: Time, written: bool)
      returns (error: Option<StoreError>, bound: Option<Binding>)
      modifies this
      ensures error.None? ==> bound.Some? && bound == BindingAt(file, path)
      ensures Answers(old(file), BindExisting(old(file), path, owner, generated, now), written, error)
    {
      bound := None;
      if !ValidOwner(owner) { return Some(InvalidIdentity), None; }
      var bindings := file.bindings;
      var i := AtPath(bindings, path);
      if i < |bindings| {
        if bindings[i].binding.owner != owner { return Some(ProfileOwnerConflict), None; }
        return None, Some(bindings[i].binding);
      }
      if !ValidUuid(generated) || RuntimeBound(bindings, generated) { return Some(GenerationFailed), None; }
      var binding := Binding(owner, None, generated, now);
      PathFoundLast(bindings, Stored(path, binding));
      error := PersistState(State(bindings + [Stored(path, binding)], file.operations), written);
      bound := Some(binding);
    }

    method ReserveFreshProfile(request: Request, generated: Uuid, now: Time, written: bool)
      returns (error: Option<StoreError>, reserved: Option<Reservation>)
      modifies this
      ensures error.None? ==> reserved.Some? && reserved == ReservationOf(file, request.operationId)
      ensures Answers(old(file), Reserve(old(file), request, generated, now), written, error)
    {
      if !ValidOwner(request.owner) || !ValidUuid(request.operationId)
         || !ValidDisplayName(request.name) || !ValidProfileId(request.profileId) {
        return Some(InvalidIdentity), None;
      }
      var operations := file.operations;
      var i := AtOperation(operations, request.operationId);
      if i < |operations| {
        if !Matches(operations[i], request) { return Some(ReservationConflict), None; }
        return None, Some(operations[i]);
      }
      if exists k :: 0 <= k < |operations| && operations[k].profileId == request.profileId {
        return Some(ReservationConflict), None;
      }
      if !ValidUuid(generated) || RuntimeBound(file.bindings, generated) || RuntimeReserved(operations, generated) {
        return Some(GenerationFailed), None;
      }
      var reservation := Reservation(request.operationId, request.owner, request.profileId, generated, request.name,
                                     request.activate, now);
      OperationFoundLast(operations, reservation);
      error := PersistState(State(file.bindings, operations + [reservation]), written);
      reserved := Some(reservation);
    }

    method CompleteFreshProfileReservation(operationId: Uuid, owner: Owner, runtimeProfileId: Uuid, written: bool)
      returns (error: Option<StoreError>, completed: bool)
      modifies this
      ensures error.None? ==> (completed <==> ReservationOf(old(file), operationId).Some?)
      ensures Answers(old(file), Complete(old(file), operationId, owner, runtimeProfileId), written, error)
    {
      if !ValidOwner(owner) || !ValidUuid(operationId) || !ValidUuid(runtimeProfileId) { return Some(InvalidIdentity), false; }
      var i := AtOperation(file.operations, operationId);
      if i == |file.operations| { return None, false; }
      var reservation := file.operations[i];
      if reservation.owner != owner || reservation.runtimeProfileId != runtimeProfileId
         || !BoundTo(file.bindings, runtimeProfileId, owner) {
        return Some(ReservationConflict), false;
      }
      error := PersistState(State(file.bindings, file.operations[..i] + file.operations[i + 1..]), written);
      completed := true;
    }

    method AttachAgentInstallation(path: Path, owner: Owner, installation: Uuid, written: bool)
      returns (error: Option<StoreError>, attached: Option<Binding>)
      modifies this
      ensures error.None? ==> attached.Some? && attached == BindingAt(file, path)
      ensures Answers(old(file), Attach(old(file), path, owner, installation), written, error)
    {
      if !ValidOwner(owner) || !ValidUuid(installation) { return Some(InvalidIdentity), None; }
      var i := AtPath(file.bindings, path);
      if i == |file.bindings| { return Some(BindingRequired), None; }
      var binding := file.bindings[i].binding;
      if binding.owner != owner { return Some(ForeignBinding), None; }
      if binding.agentInstallationId == Some(installation) { return None, Some(binding); }
      if binding.agentInstallationId.Some? { return Some(AlreadyAttached), None; }
      if InstallationUsedElsewhere(file.bindings, path, installation) { return Some(InstallationTaken), None; }
      var updated := Stored(path, Binding(binding.owner, Some(installation), binding.runtimeProfileId, binding.boundAt));
      PathKeptAt(file.bindings, i, updated);
      error := PersistState(State(file.bindings[i := updated], file.operations), written);
      attached := Some(updated.binding);
    }

    method RemoveProfileBinding(path: Path, owner: Owner, runtimeProfileId: Uuid, installation: Option<Uuid>, written: bool)
      returns (error: Option<StoreError>, removed: bool)
      modifies this
      ensures error.None? ==> (removed <==> BindingAt(old(file), path).Some?)
      ensures Answers(old(file), Remove(old(file), path, owner, runtimeProfileId, installation), written, error)
    {
      if !ValidOwner(owner) || !ValidUuid(runtimeProfileId)
         || (installation.Some? && !ValidUuid(installation.value)) {
        return Some(InvalidIdentity), false;
      }
      var i := AtPath(file.bindings, path);
      if i == |file.bindings| { return None, false; }
      var binding := file.bindings[i].binding;
      if binding.owner != owner || binding.runtimeProfileId != runtimeProfileId || binding.agentInstallationId != installation {
        return Some(RemovalRefused), false;
      }
      error := PersistState(State(file.bindings[..i] + file.bindings[i + 1..], file.operations), written);
      removed := true;
    }

    /** Other calls on the store while this one awaits. */
    method OthersRun(es: seq<Event>)
      modifies this
      ensures file == Run(Store(old(file), []), es).state
    {
      var store := Store(file, []);
      var i := 0;
      assert es[..0] == [];
      while i < |es|
        invariant 0 <= i <= |es|
        invariant store == Run(Store(old(file), []), es[..i])
      {
        store := Step(store, es[i]);
        assert es[..i + 1][..i] == es[..i];
        i := i + 1;
      }
      assert es[..i] == es;
      file := store.state;
    }

    method BindAfterAwait(r: Reservation, owner: Owner, a: Adapters) returns (result: Result<Stored, StoreError>)
      requires a.creation.Created?
      modifies this
      ensures Reconciled(file, result) == AfterAwait(old(file), r, owner, a)
    {
      var bound := BindReserved(file, r.operationId, owner, a.creation.path);
      if bound.Err? { return Err(bound.error); }
      var reservation := file.operations[AtOperation(file.operations, r.operationId)];
      if bound.value != file {
        var failed := PersistState(bound.value, a.bindWritten);
        if failed.Some? { return Err(WriteFailed); }
      }
      var stored := file.bindings[AtPath(file.bindings, a.creation.path)];
      if !reservation.activate { return Ok(stored); }
      if !a.activated { return Err(CreationFailed); }
      var spent := SpendReservation(file, reservation, owner, a.creation.path);
      if spent.Err? { return Err(spent.error); }
      var failed := PersistState(spent.value, a.spendWritten);
      result := if failed.Some? then Err(WriteFailed) else Ok(stored);
    }

    method ReconcileFreshProfile(operationId: Uuid, owner: Owner, a: Adapters) returns (result: Result<Stored, StoreError>)
      modifies this
      ensures Reconciled(file, result) == Reconcile(old(file), operationId, owner, a)
    {
      var found := FindReservation(file, operationId, owner);
      if found.Err? { return Err(found.error); }
      if !a.profileExists { OthersRun(a.during); }
      if a.creation.NotCreated? { return Err(CreationFailed); }
      if a.creation.privateData { return Err(PrivateDataConflict); }
      result := BindAfterAwait(found.value, owner, a);
    }
  }
}
