/**
 * One execution under an owner epoch lease: route resolution, availability and
 * source checks, the credential, and the callback. Every await lets the owner
 * coordinator take any number of steps.
 */
module ExecutionLease {
  import opened Wrappers
  import opened OwnerSwitch

  datatype Identity = Identity(provider: string, model: string, baseUrl: string, apiMode: Option<string>)

  datatype Route = Route(
    legacy: bool,
    identity: Identity,
    sourceProfileId: string,
    modelLibraryId: string,
    credentialRef: Option<string>)

  datatype RunError =
    | SourceUnavailable
    | RouteDrift
    | RouteAmbiguous
    | CredentialUnavailable
    | RemoteUnavailable
    | OwnerLost(cause: LeaseError)
    | AdapterFailed

  datatype Mode = Local | Remote | Ssh

  /** An answer that arrives after other steps; Err when the adapter or callback rejects. */
  datatype Await<+T> = Await(during: seq<Event>, answer: Result<T, ()>)

  /** A route handed in by an adapter; None when it does not parse. */
  type RawRoute = Option<Route>

  datatype LegacyResolution = Resolved(route: RawRoute) | Missing | Ambiguous

  datatype Settings = Settings(route: Route, mode: Mode)

  /** Adapter answers of one run; an absent optional adapter is None. */
  datatype Answers<T> = Answers(
    legacy: Option<Await<LegacyResolution>>,
    available: Await<bool>,
    sourceVerified: Option<Await<bool>>,
    sourceRoute: Option<Await<Option<RawRoute>>>,
    secret: Option<string>,
    localUrl: bool,
    callback: Await<T>)

  datatype Execution = Execution(route: Route, credential: Option<string>)

  datatype Progress<+T> = Progress(result: Result<T, RunError>, coordinator: Coordinator)

  /** `started` is what the callback was given, if it was called. */
  datatype Finished<T> = Finished(result: Result<T, RunError>, coordinator: Coordinator, started: Option<Execution>)

  function Lower(s: string): string {
    if s == "" then ""
    else [if 'A' <= s[0] <= 'Z' then s[0] - 'A' + 'a' else s[0]] + Lower(s[1..])
  }

  predicate Blank(ch: char) {
    ch == ' ' || ch == '\t' || ch == '\n' || ch == '\r'
  }

  function TrimStart(s: string): string {
    if s != "" && Blank(s[0]) then TrimStart(s[1..]) else s
  }

  function TrimEnd(s: string): string {
    if s != "" && Blank(s[|s| - 1]) then TrimEnd(s[..|s| - 1]) else s
  }

  function Trim(s: string): string {
    TrimEnd(TrimStart(s))
  }

  function DropSlashes(s: string): string {
    if s != "" && s[|s| - 1] == '/' then DropSlashes(s[..|s| - 1]) else s
  }

  predicate SameIdentity(a: Identity, b: Identity) {
    && Lower(Trim(a.provider)) == Lower(Trim(b.provider))
    && Trim(a.model) == Trim(b.model)
    && Lower(DropSlashes(Trim(a.baseUrl))) == Lower(DropSlashes(Trim(b.baseUrl)))
  }

  // ---------------------------------------------------------------------
  // The run, segment by segment
  // ---------------------------------------------------------------------

  function Checked<T>(c: Coordinator, l: Lease, value: T): Progress<T> {
    if Current(c, l) then Progress(Ok(value), c) else Progress(Err(OwnerLost(StaleError(c, l))), c)
  }

  function ResolveRoute(s: Settings, l: Lease, c: Coordinator, legacy: Option<Await<LegacyResolution>>): Progress<Route> {
    if !s.route.legacy then Progress(Ok(s.route), c)
    else if legacy.None? then
      if !Current(c, l) then Progress(Err(OwnerLost(StaleError(c, l))), c)
      else Progress(Err(SourceUnavailable), c)
    else
      var c := Run(c, legacy.value.during);
      match legacy.value.answer
      case Err(_) => Progress(Err(AdapterFailed), c)
      case Ok(resolution) =>
        if !Current(c, l) then Progress(Err(OwnerLost(StaleError(c, l))), c)
        else if resolution.Ambiguous? then Progress(Err(RouteAmbiguous), c)
        else if resolution.Missing? then Progress(Err(SourceUnavailable), c)
        else if resolution.route.None? then Progress(Err(AdapterFailed), c)
        else if resolution.route.value.legacy then Progress(Err(SourceUnavailable), c)
        else if !SameIdentity(s.route.identity, resolution.route.value.identity) then Progress(Err(RouteDrift), c)
        else Progress(Ok(resolution.route.value), c)
  }

  function CheckAvailable(s: Settings, l: Lease, c: Coordinator, available: Await<bool>): Progress<()> {
    if s.mode == Local then Progress(Ok(()), c)
    else
      var c := Run(c, available.during);
      match available.answer
      case Err(_) => Progress(Err(AdapterFailed), c)
      case Ok(yes) =>
        if !Current(c, l) then Progress(Err(OwnerLost(StaleError(c, l))), c)
        else if !yes then Progress(Err(RemoteUnavailable), c)
        else Progress(Ok(()), c)
  }

  function VerifySource(c: Coordinator, verified: Option<Await<bool>>): Progress<()> {
    if verified.None? then Progress(Ok(()), c)
    else
      var c := Run(c, verified.value.during);
      match verified.value.answer
      case Err(_) => Progress(Err(AdapterFailed), c)
      case Ok(yes) => Progress(if yes then Ok(()) else Err(SourceUnavailable), c)
  }

  function CompareSource(route: Route, c: Coordinator, current: Option<Await<Option<RawRoute>>>): Progress<()> {
    if current.None? then Progress(Ok(()), c)
    else
      var c := Run(c, current.value.during);
      match current.value.answer
      case Err(_) => Progress(Err(AdapterFailed), c)
      case Ok(None) => Progress(Err(RouteDrift), c)
      case Ok(Some(None)) => Progress(Err(AdapterFailed), c)
      case Ok(Some(Some(r))) => Progress(if r == route then Ok(()) else Err(RouteDrift), c)
  }

  function CheckSource<T>(route: Route, l: Lease, c: Coordinator, answers: Answers<T>): Progress<()> {
    if route.legacy then Progress(Ok(()), c)
    else
      var verified := VerifySource(c, answers.sourceVerified);
      if verified.result.Err? then verified
      else
        var compared := CompareSource(route, verified.coordinator, answers.sourceRoute);
        if compared.result.Err? then compared else Checked(compared.coordinator, l, ())
  }

  function ReadCredential<T>(mode: Mode, route: Route, answers: Answers<T>): Result<Option<string>, RunError> {
    if mode == Local && route.credentialRef.Some? then
      if answers.secret.Some? && Trim(answers.secret.value) != "" then Ok(answers.secret)
      else Err(CredentialUnavailable)
    else if mode == Local && !route.legacy && !answers.localUrl then Err(CredentialUnavailable)
    else Ok(None)
  }

  function Invoke<T>(execution: Execution, l: Lease, c: Coordinator, callback: Await<T>): Finished<T> {
    if !Current(c, l) then Finished(Err(OwnerLost(StaleError(c, l))), c, None)
    else
      var c := Run(c, callback.during);
      match callback.answer
      case Err(_) => Finished(Err(AdapterFailed), c, Some(execution))
      case Ok(value) =>
        var checked := Checked(c, l, value);
        Finished(checked.result, c, Some(execution))
  }

  function Stopped<S, T>(p: Progress<S>): Finished<T>
    requires p.result.Err?
  {
    Finished(Err(p.result.error), p.coordinator, None)
  }

  function RunExecution<T>(s: Settings, l: Lease, c: Coordinator, answers: Answers<T>): Finished<T> {
    if !Current(c, l) then Finished(Err(OwnerLost(StaleError(c, l))), c, None)
    else
      var resolved := ResolveRoute(s, l, c, answers.legacy);
      if resolved.result.Err? then Stopped(resolved)
      else
        var route := resolved.result.value;
        var available := CheckAvailable(s, l, resolved.coordinator, answers.available);
        if available.result.Err? then Stopped(available)
        else
          var source := CheckSource(route, l, available.coordinator, answers);
          if source.result.Err? then Stopped(source)
          else
            match ReadCredential(s.mode, route, answers)
            case Err(e) => Finished(Err(e), source.coordinator, None)
            case Ok(credential) =>
              Invoke(Execution(route, credential), l, source.coordinator, answers.callback)
  }

  // ---------------------------------------------------------------------
  // What a returned value means
  // ---------------------------------------------------------------------

  /** The lease is one that AcquireLease handed out in a state the coordinator can reach. */
  predicate Granted(c: Coordinator, l: Lease) {
    Inv(c) && Held(c, l)
  }

  lemma GrantedWhenAcquired(es: seq<Event>, l: Lease)
    requires Acquire(Run(Initial, es)) == Ok(l)
    ensures Granted(Run(Initial, es), l)
  {
    RunKeepsInv(es);
  }

  /** `later` is a state the coordinator reaches from `earlier`. */
  predicate Follows(earlier: Coordinator, later: Coordinator, l: Lease) {
    Granted(later, l) && earlier.epoch <= later.epoch
  }

  lemma RunFollows(c: Coordinator, l: Lease, es: seq<Event>)
    requires Granted(c, l)
    ensures Follows(c, Run(c, es), l)
  {
    RunKeepsHeld(c, l, es);
  }

  lemma CurrentMeansSameEpoch(c: Coordinator, l: Lease)
    requires Granted(c, l)
    ensures Current(c, l) <==> c.epoch == l.epoch
  {
  }

  /** The non-legacy route the execution uses, if resolution succeeds. */
  function EffectiveRoute<T>(s: Settings, answers: Answers<T>): Option<Route> {
    if !s.route.legacy then Some(s.route)
    else
      match answers.legacy
      case Some(Await(_, Ok(Resolved(Some(r))))) =>
        if !r.legacy && SameIdentity(s.route.identity, r.identity) then Some(r) else None
      case _ => None
  }

  predicate Reachable(s: Settings, available: Await<bool>) {
    s.mode == Local || available.answer == Ok(true)
  }

  /** The source profile is verified and still publishes exactly this route. */
  predicate Unmoved<T>(route: Route, answers: Answers<T>) {
    && (answers.sourceVerified.None? || answers.sourceVerified.value.answer == Ok(true))
    && (answers.sourceRoute.None? || answers.sourceRoute.value.answer == Ok(Some(Some(route))))
  }

  predicate CredentialReady<T>(s: Settings, route: Route, answers: Answers<T>) {
    s.mode == Local ==>
      if route.credentialRef.Some? then answers.secret.Some? && Trim(answers.secret.value) != ""
      else answers.localUrl
  }

  predicate GatesOpen<T>(s: Settings, answers: Answers<T>) {
    var route := EffectiveRoute(s, answers);
    && route.Some?
    && Reachable(s, answers.available)
    && Unmoved(route.value, answers)
    && CredentialReady(s, route.value, answers)
  }

  function During<T>(a: Option<Await<T>>): seq<Event> {
    if a.Some? then a.value.during else []
  }

  /** What the coordinator does while the run awaits, await by await. */
  function AfterResolve<T>(s: Settings, c: Coordinator, answers: Answers<T>): Coordinator {
    if s.route.legacy then Run(c, During(answers.legacy)) else c
  }

  function AfterAvailable<T>(s: Settings, c: Coordinator, answers: Answers<T>): Coordinator {
    var c := AfterResolve(s, c, answers);
    if s.mode == Local then c else Run(c, answers.available.during)
  }

  function AfterSource<T>(s: Settings, c: Coordinator, answers: Answers<T>): Coordinator {
    Run(Run(AfterAvailable(s, c, answers), During(answers.sourceVerified)), During(answers.sourceRoute))
  }

  function AfterCallback<T>(s: Settings, c: Coordinator, answers: Answers<T>): Coordinator {
    Run(AfterSource(s, c, answers), answers.callback.during)
  }

  lemma ResolveExact<T>(s: Settings, l: Lease, c: Coordinator, answers: Answers<T>)
    requires Granted(c, l) && c.epoch == l.epoch
    ensures var p := ResolveRoute(s, l, c, answers.legacy);
      && Follows(c, p.coordinator, l)
      && p.coordinator == AfterResolve(s, c, answers)
      && (p.result.Ok? <==> EffectiveRoute(s, answers).Some? && p.coordinator.epoch == l.epoch)
      && (p.result.Ok? ==> EffectiveRoute(s, answers) == Some(p.result.value) && !p.result.value.legacy)
  {
    RunFollows(c, l, During(answers.legacy));
    CurrentMeansSameEpoch(Run(c, During(answers.legacy)), l);
  }

  lemma AvailableExact(s: Settings, l: Lease, c: Coordinator, available: Await<bool>)
    requires Granted(c, l) && c.epoch == l.epoch
    ensures var p := CheckAvailable(s, l, c, available);
      && Follows(c, p.coordinator, l)
      && p.coordinator == (if s.mode == Local then c else Run(c, available.during))
      && (p.result.Ok? <==> Reachable(s, available) && p.coordinator.epoch == l.epoch)
  {
    RunFollows(c, l, available.during);
    CurrentMeansSameEpoch(Run(c, available.during), l);
  }

  lemma VerifyExact(c: Coordinator, verified: Option<Await<bool>>)
    ensures VerifySource(c, verified).coordinator == Run(c, During(verified))
    ensures VerifySource(c, verified).result.Ok? <==> verified.None? || verified.value.answer == Ok(true)
  {
  }

  lemma CompareExact(route: Route, c: Coordinator, current: Option<Await<Option<RawRoute>>>)
    ensures CompareSource(route, c, current).coordinator == Run(c, During(current))
    ensures CompareSource(route, c, current).result.Ok? <==> current.None? || current.value.answer == Ok(Some(Some(route)))
  {
  }

  lemma SourceExact<T>(route: Route, l: Lease, c: Coordinator, answers: Answers<T>)
    requires Granted(c, l) && !route.legacy
    ensures var p := CheckSource(route, l, c, answers);
      && Follows(c, p.coordinator, l)
      && (Unmoved(route, answers) ==>
            p.coordinator == Run(Run(c, During(answers.sourceVerified)), During(answers.sourceRoute)))
      && (p.result.Ok? <==> Unmoved(route, answers) && p.coordinator.epoch == l.epoch)
  {
    VerifyExact(c, answers.sourceVerified);
    RunFollows(c, l, During(answers.sourceVerified));
    var verified := VerifySource(c, answers.sourceVerified);
    if verified.result.Ok? {
      CompareExact(route, verified.coordinator, answers.sourceRoute);
      RunFollows(verified.coordinator, l, During(answers.sourceRoute));
      CurrentMeansSameEpoch(CompareSource(route, verified.coordinator, answers.sourceRoute).coordinator, l);
    }
  }

  lemma InvokeExact<T>(execution: Execution, l: Lease, c: Coordinator, callback: Await<T>)
    requires Granted(c, l) && c.epoch == l.epoch
    ensures var f := Invoke(execution, l, c, callback);
      && Follows(c, f.coordinator, l)
      && f.coordinator == Run(c, callback.during)
      && f.started == Some(execution)
      && (f.result.Ok? <==> callback.answer.Ok? && f.coordinator.epoch == l.epoch)
      && (f.result.Ok? ==> f.result.value == callback.answer.value)
  {
    RunFollows(c, l, callback.during);
    CurrentMeansSameEpoch(c, l);
    CurrentMeansSameEpoch(Run(c, callback.during), l);
  }

  lemma ScheduleFollows<T>(s: Settings, l: Lease, c: Coordinator, answers: Answers<T>)
    requires Granted(c, l)
    ensures c.epoch <= AfterResolve(s, c, answers).epoch <= AfterAvailable(s, c, answers).epoch
    ensures AfterAvailable(s, c, answers).epoch <= AfterSource(s, c, answers).epoch <= AfterCallback(s, c, answers).epoch
    ensures Granted(AfterSource(s, c, answers), l) && Granted(AfterCallback(s, c, answers), l)
  {
    RunFollows(c, l, During(answers.legacy));
    var c1 := AfterResolve(s, c, answers);
    RunFollows(c1, l, answers.available.during);
    var c2 := AfterAvailable(s, c, answers);
    RunFollows(c2, l, During(answers.sourceVerified));
    RunFollows(Run(c2, During(answers.sourceVerified)), l, During(answers.sourceRoute));
    RunFollows(AfterSource(s, c, answers), l, answers.callback.during);
  }

  /** A run that stops before its callback has started nothing. */
  lemma ReturnsOnlyThroughGates<T>(s: Settings, l: Lease, c: Coordinator, answers: Answers<T>)
    requires Granted(c, l) && c.epoch == l.epoch
    ensures var f := RunExecution(s, l, c, answers);
      && Follows(c, f.coordinator, l)
      && (f.started.Some? <==> GatesOpen(s, answers) && AfterSource(s, c, answers).epoch == l.epoch)
      && (f.started.None? ==> f.result.Err?)
      && (f.started.Some? ==>
            && f == Invoke(f.started.value, l, AfterSource(s, c, answers), answers.callback)
            && Some(f.started.value.route) == EffectiveRoute(s, answers)
            && (s.mode == Local && f.started.value.route.credentialRef.Some? ==>
                  f.started.value.credential == answers.secret)
            && (s.mode != Local || f.started.value.route.credentialRef.None? ==> f.started.value.credential == None))
  {
    CurrentMeansSameEpoch(c, l);
    ScheduleFollows(s, l, c, answers);
    ResolveExact(s, l, c, answers);
    var resolved := ResolveRoute(s, l, c, answers.legacy);
    if resolved.result.Ok? {
      var route := resolved.result.value;
      AvailableExact(s, l, resolved.coordinator, answers.available);
      var available := CheckAvailable(s, l, resolved.coordinator, answers.available);
      if available.result.Ok? {
        SourceExact(route, l, available.coordinator, answers);
        var source := CheckSource(route, l, available.coordinator, answers);
        if source.result.Ok? && ReadCredential(s.mode, route, answers).Ok? {
          InvokeExact(Execution(route, ReadCredential(s.mode, route, answers).value), l, source.coordinator, answers.callback);
        }
      }
    }
  }

  /**
   * `run` returns a value exactly when every gate is open, the callback
   * produced that value and no owner transition began between the grant of the
   * lease and the end of the callback.
   */
  lemma ReturnMeansNoTransition<T>(es: seq<Event>, more: seq<Event>, s: Settings, l: Lease, answers: Answers<T>)
    requires Acquire(Run(Initial, es)) == Ok(l)
    ensures var acquired := Run(Initial, es);
      var c := Run(acquired, more);
      var f := RunExecution(s, l, c, answers);
      && (f.result.Ok? <==>
            && GatesOpen(s, answers)
            && answers.callback.answer.Ok?
            && Transitions(AfterCallback(s, c, answers).log) == Transitions(acquired.log))
      && (f.result.Ok? ==> f.result.value == answers.callback.answer.value && f.coordinator == AfterCallback(s, c, answers))
  {
    GrantedWhenAcquired(es, l);
    var acquired := Run(Initial, es);
    RunFollows(acquired, l, more);
    var c := Run(acquired, more);
    CurrentMeansSameEpoch(c, l);
    ScheduleFollows(s, l, c, answers);
    if c.epoch == l.epoch {
      ReturnsOnlyThroughGates(s, l, c, answers);
      var f := RunExecution(s, l, c, answers);
      if f.started.Some? {
        RunFollows(c, l, []);
        InvokeExact(f.started.value, l, AfterSource(s, c, answers), answers.callback);
      }
    }
  }

  // ---------------------------------------------------------------------
  // The run as a program
  // ---------------------------------------------------------------------

  /** The object the callback receives; its credential is cleared when the run ends. */
  class AgentModelExecution {
    const route: Route
    var credential: Option<string>

    constructor (route: Route, credential: Option<string>)
      ensures this.route == route && this.credential == credential
    {
      this.route := route;
      this.credential := credential;
    }
  }

  class AgentModelExecutionLease<T> {
    const settings: Settings
    const ownerLease: Lease

    constructor (settings: Settings, ownerLease: Lease)
      ensures this.settings == settings && this.ownerLease == ownerLease
    {
      this.settings := settings;
      this.ownerLease := ownerLease;
    }

    method AssertOwner(owners: OwnerSwitchCoordinator) returns (e: Option<RunError>)
      ensures e == if Current(owners.View(), ownerLease) then None else Some(OwnerLost(StaleError(owners.View(), ownerLease)))
    {
      var stale := owners.AssertCurrent(ownerLease);
      e := if stale.Some? then Some(OwnerLost(stale.value)) else None;
    }

    method Resolve(owners: OwnerSwitchCoordinator, legacy: Option<Await<LegacyResolution>>)
      returns (r: Result<Route, RunError>)
      requires Current(owners.View(), ownerLease)
      modifies owners
      ensures Progress(r, owners.View()) == ResolveRoute(settings, ownerLease, old(owners.View()), legacy)
    {
      var executionRoute := settings.route;
      if executionRoute.legacy {
        var resolution := Missing;
        if legacy.Some? {
          owners.Play(legacy.value.during);
          if legacy.value.answer.Err? { return Err(AdapterFailed); }
          resolution := legacy.value.answer.value;
        }
        var stale := AssertOwner(owners);
        if stale.Some? { return Err(stale.value); }
        if resolution.Ambiguous? { return Err(RouteAmbiguous); }
        if resolution.Missing? { return Err(SourceUnavailable); }
        if resolution.route.None? { return Err(AdapterFailed); }
        var resolved := resolution.route.value;
        if resolved.legacy { return Err(SourceUnavailable); }
        if !SameIdentity(settings.route.identity, resolved.identity) { return Err(RouteDrift); }
        executionRoute := resolved;
      }
      r := Ok(executionRoute);
    }

    method Available(owners: OwnerSwitchCoordinator, available: Await<bool>) returns (r: Result<(), RunError>)
      modifies owners
      ensures Progress(r, owners.View()) == CheckAvailable(settings, ownerLease, old(owners.View()), available)
    {
      if settings.mode != Local {
        owners.Play(available.during);
        if available.answer.Err? { return Err(AdapterFailed); }
        var stale := AssertOwner(owners);
        if stale.Some? { return Err(stale.value); }
        if !available.answer.value { return Err(RemoteUnavailable); }
      }
      r := Ok(());
    }

    method Source(owners: OwnerSwitchCoordinator, route: Route, answers: Answers<T>) returns (r: Result<(), RunError>)
      modifies owners
      ensures Progress(r, owners.View()) == CheckSource(route, ownerLease, old(owners.View()), answers)
    {
      if route.legacy { return Ok(()); }
      if answers.sourceVerified.Some? {
        owners.Play(answers.sourceVerified.value.during);
        if answers.sourceVerified.value.answer.Err? { return Err(AdapterFailed); }
        if !answers.sourceVerified.value.answer.value { return Err(SourceUnavailable); }
      }
      if answers.sourceRoute.Some? {
        owners.Play(answers.sourceRoute.value.during);
        if answers.sourceRoute.value.answer.Err? { return Err(AdapterFailed); }
        var current := answers.sourceRoute.value.answer.value;
        if current.None? { return Err(RouteDrift); }
        if current.value.None? { return Err(AdapterFailed); }
        if current.value.value != route { return Err(RouteDrift); }
      }
      var stale := AssertOwner(owners);
      r := if stale.Some? then Err(stale.value) else Ok(());
    }

    /** The execution object outlives the run only with its credential cleared. */
    method RunCallback(owners: OwnerSwitchCoordinator, answers: Answers<T>)
      returns (r: Result<T, RunError>, execution: AgentModelExecution?, ghost started: Option<Execution>)
      modifies owners
      ensures Finished(r, owners.View(), started) == RunExecution(settings, ownerLease, old(owners.View()), answers)
      ensures execution != null ==> fresh(execution) && execution.credential == None
      ensures started.Some? ==> execution != null && execution.route == started.value.route
    {
      started, execution := None, null;
      var stale := AssertOwner(owners);
      if stale.Some? { return Err(stale.value), null, None; }
      var resolved := Resolve(owners, answers.legacy);
      if resolved.Err? { return Err(resolved.error), null, None; }
      var executionRoute := resolved.value;
      var available := Available(owners, answers.available);
      if available.Err? { return Err(available.error), null, None; }
      var source := Source(owners, executionRoute, answers);
      if source.Err? { return Err(source.error), null, None; }
      var credential := ReadCredential(settings.mode, executionRoute, answers);
      if credential.Err? { return Err(credential.error), null, None; }
      execution := new AgentModelExecution(executionRoute, credential.value);
      stale := AssertOwner(owners);
      if stale.Some? {
        r := Err(stale.value);
      } else {
        started := Some(Execution(execution.route, execution.credential));
        owners.Play(answers.callback.during);
        if answers.callback.answer.Err? {
          r := Err(AdapterFailed);
        } else {
          stale := AssertOwner(owners);
          r := if stale.Some? then Err(stale.value) else Ok(answers.callback.answer.value);
        }
      }
      execution.credential := None;
    }
  }
}
