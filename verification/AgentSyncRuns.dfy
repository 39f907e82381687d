/** What becomes of edits over whole runs of sync passes, however they read, fail or are cut short. */
module AgentSyncRuns {
  import opened AgentSync
  import opened AgentSyncLaws
  import opened Wrappers

  function Passes(pair: Pair, ws: seq<Weather>): Pair
    decreases |ws|
  {
    if ws == [] then pair else Passes(Reconcile(pair, ws[0]), ws[1..])
  }

  lemma StaysReadable(pair: Pair, w: Weather)
    requires Readable(pair)
    ensures Readable(Reconcile(pair, w))
  {
    LocalAfter(pair, w, Color);
    RemoteAfter(pair, w, Color);
  }

  /** A cloud value the pull can apply: a six-digit color, any persona, a configuration with a model. */
  predicate Appliable(part: Part, values: PartValues) {
    match part
    case Color => IsHexColor(values.color)
    case Soul => true
    case Config => values.model != ""
  }

  lemma AppliableByHash(part: Part, a: PartValues, b: PartValues)
    requires HashPart(part, a) == HashPart(part, b)
    ensures Appliable(part, a) == Appliable(part, b)
  {
    match part
    case Color => assert ColorHash(a.color) == ColorHash(b.color);
    case Soul =>
    case Config => assert ConfigHash(a.model, a.provider) == ConfigHash(b.model, b.provider);
  }

  // ---------------------------------------------------------------------
  // Local values
  // ---------------------------------------------------------------------

  /** The local value is in the cloud too, or what is there is the recorded base. */
  predicate LocalSafe(pair: Pair, part: Part) {
    LocalOf(pair, part) == RemoteOf(pair, part) || BaseOf(pair.base, part) == Some(RemoteOf(pair, part))
  }

  /** That is what keeps it from being pulled over: no pass that reads the part changes the local side. */
  lemma LocalSafeExactly(pair: Pair, part: Part)
    requires Readable(pair) && Appliable(part, pair.remote)
    ensures LocalSafe(pair, part)
      <==> forall w :: ReadsPart(w, part) ==> LocalOf(Reconcile(pair, w), part) == LocalOf(pair, part)
  {
    forall w | ReadsPart(w, part) && LocalSafe(pair, part)
      ensures LocalOf(Reconcile(pair, w), part) == LocalOf(pair, part)
    {
      SeenAsIs(pair, w, part);
      LocalAfter(pair, w, part);
    }
    if !LocalSafe(pair, part) {
      var w := Disturbing(pair, part).(push := Refused);
      SeenAsIs(pair, w, part);
      LocalAfter(pair, w, part);
      assert ReadsPart(w, part) && LocalOf(Reconcile(pair, w), part) != LocalOf(pair, part);
    }
  }

  /**
   * The pass pulls another value over a safe local one; or the push of a misread
   * value took effect but was not recorded; or an unreadable sync state is written
   * back without the base of a part that still differs.
   */
  predicate Endangers(pair: Pair, w: Weather, part: Part) {
    || (PullTakes(pair, w, part) && LocalOf(pair, part) != RemoteOf(pair, part))
    || (PushTakes(pair, w, part) && !Completes(pair, w) && SeenOf(pair, w, part) != LocalOf(pair, part)
        && BaseOf(pair.base, part) != Some(SeenOf(pair, w, part)))
    || (ActionFor(pair, w, part) == Push && !PushTakes(pair, w, part) && Completes(pair, w) && !w.read.state
        && LocalOf(pair, part) != RemoteOf(pair, part))
  }

  lemma PassEndangersExactly(pair: Pair, w: Weather, part: Part)
    requires Readable(pair) && LocalSafe(pair, part)
    ensures
      var after := Reconcile(pair, w);
      LocalSafe(after, part) && LocalOf(after, part) == LocalOf(pair, part) <==> !Endangers(pair, w, part)
  {
    LocalAfter(pair, w, part);
    RemoteAfter(pair, w, part);
    BaseAfter(pair, w, part);
  }

  /** The local side holds the value, safely, before the run and after every pass of it. */
  predicate LocalKept(pair: Pair, ws: seq<Weather>, part: Part, value: Hash)
    decreases |ws|
  {
    && LocalOf(pair, part) == value && LocalSafe(pair, part)
    && (ws == [] || LocalKept(Reconcile(pair, ws[0]), ws[1..], part, value))
  }

  predicate NeverEndangered(pair: Pair, ws: seq<Weather>, part: Part)
    decreases |ws|
  {
    ws == [] || (!Endangers(pair, ws[0], part) && NeverEndangered(Reconcile(pair, ws[0]), ws[1..], part))
  }

  /** A one-sided local edit stays safe through a run, whatever the passes meet and read, exactly if none of them endangers it. */
  lemma {:induction false} LocalEditSurvivesExactly(pair: Pair, ws: seq<Weather>, part: Part)
    requires Readable(pair) && LocalSafe(pair, part)
    ensures LocalKept(pair, ws, part, LocalOf(pair, part)) <==> NeverEndangered(pair, ws, part)
    decreases |ws|
  {
    hide Endangers, LocalSafe;
    if ws != [] {
      var after := Reconcile(pair, ws[0]);
      StaysReadable(pair, ws[0]);
      PassEndangersExactly(pair, ws[0], part);
      if LocalSafe(after, part) && LocalOf(after, part) == LocalOf(pair, part) {
        LocalEditSurvivesExactly(after, ws[1..], part);
      }
    }
  }

  /** Passes that read the part, however they fail, never do. */
  lemma {:induction false} LocalEditSurvivesEveryRun(pair: Pair, ws: seq<Weather>, part: Part)
    requires Readable(pair) && LocalSafe(pair, part)
    requires forall i :: 0 <= i < |ws| ==> ReadsPart(ws[i], part)
    ensures LocalKept(pair, ws, part, LocalOf(pair, part))
    decreases |ws|
  {
    hide LocalSafe;
    if ws != [] {
      StaysReadable(pair, ws[0]);
      ReadPartIsSafe(pair, ws[0], part);
      PassEndangersExactly(pair, ws[0], part);
      LocalEditSurvivesEveryRun(Reconcile(pair, ws[0]), ws[1..], part);
    }
  }

  lemma ReadPartIsSafe(pair: Pair, w: Weather, part: Part)
    requires LocalSafe(pair, part) && ReadsPart(w, part)
    ensures !Endangers(pair, w, part)
  {
    SeenAsIs(pair, w, part);
  }

  // ---------------------------------------------------------------------
  // Cloud values
  // ---------------------------------------------------------------------

  /** The cloud's value is on the local side too, or what is there is the recorded base. */
  predicate RemoteSafe(pair: Pair, part: Part) {
    LocalOf(pair, part) == RemoteOf(pair, part) || BaseOf(pair.base, part) == Some(LocalOf(pair, part))
  }

  /** That is what keeps it from being pushed over: no pass that reads the part changes the cloud's side. */
  lemma RemoteSafeExactly(pair: Pair, part: Part)
    requires Readable(pair) && !IsPartSkipped(part, pair.local)
    ensures RemoteSafe(pair, part)
      <==> forall w :: ReadsPart(w, part) ==> RemoteOf(Reconcile(pair, w), part) == RemoteOf(pair, part)
  {
    forall w | ReadsPart(w, part) && RemoteSafe(pair, part)
      ensures RemoteOf(Reconcile(pair, w), part) == RemoteOf(pair, part)
    {
      SeenAsIs(pair, w, part);
      RemoteAfter(pair, w, part);
    }
    if !RemoteSafe(pair, part) {
      var w := Disturbing(pair, part).(localMs := map[part := 1]);
      RemoteAfter(pair, w, part);
      assert ReadsPart(w, part) && RemoteOf(Reconcile(pair, w), part) != RemoteOf(pair, part);
    }
  }

  /**
   * The push of a value the pass took for the local one took effect; or the sides
   * still differ and the pass recorded the cloud's value as common ground, having
   * misread it on the local side or lost its pull, or wrote back an unreadable sync
   * state without the base.
   */
  predicate LosesEdit(pair: Pair, w: Weather, part: Part) {
    || PushTakes(pair, w, part)
    || (Completes(pair, w) && !PullTakes(pair, w, part) && LocalOf(pair, part) != RemoteOf(pair, part)
        && !(ActionFor(pair, w, part) == Push && w.read.state))
  }

  lemma PassLosesExactly(pair: Pair, w: Weather, part: Part)
    requires Readable(pair) && RemoteSafe(pair, part)
    ensures
      var after := Reconcile(pair, w);
      RemoteSafe(after, part) && RemoteOf(after, part) == RemoteOf(pair, part) <==> !LosesEdit(pair, w, part)
  {
    LocalAfter(pair, w, part);
    RemoteAfter(pair, w, part);
    BaseAfter(pair, w, part);
  }

  predicate RemoteKept(pair: Pair, ws: seq<Weather>, part: Part, value: Hash)
    decreases |ws|
  {
    && RemoteOf(pair, part) == value && RemoteSafe(pair, part)
    && (ws == [] || RemoteKept(Reconcile(pair, ws[0]), ws[1..], part, value))
  }

  predicate NeverLost(pair: Pair, ws: seq<Weather>, part: Part)
    decreases |ws|
  {
    ws == [] || (!LosesEdit(pair, ws[0], part) && NeverLost(Reconcile(pair, ws[0]), ws[1..], part))
  }

  /** A one-sided cloud edit stays safe through a run, whatever the passes meet and read, exactly if none of them loses it. */
  lemma {:induction false} RemoteEditSurvivesExactly(pair: Pair, ws: seq<Weather>, part: Part)
    requires Readable(pair) && RemoteSafe(pair, part)
    ensures RemoteKept(pair, ws, part, RemoteOf(pair, part)) <==> NeverLost(pair, ws, part)
    decreases |ws|
  {
    hide LosesEdit, RemoteSafe;
    if ws != [] {
      var after := Reconcile(pair, ws[0]);
      StaysReadable(pair, ws[0]);
      PassLosesExactly(pair, ws[0], part);
      if RemoteSafe(after, part) && RemoteOf(after, part) == RemoteOf(pair, part) {
        RemoteEditSurvivesExactly(after, ws[1..], part);
      }
    }
  }

  /** The pass records the cloud's value as common ground although its pull was given up. */
  predicate LosesPull(pair: Pair, w: Weather, part: Part) {
    ActionFor(pair, w, part) == Pull && PullOutcome(part, pair.remote, w) == Lost && Completes(pair, w)
  }

  /** Of a pass that reads the part, losing the edit is losing its pull. */
  lemma LosesByPullOnly(pair: Pair, w: Weather, part: Part)
    requires RemoteSafe(pair, part) && ReadsPart(w, part)
    ensures LosesEdit(pair, w, part) <==> LosesPull(pair, w, part)
  {
    SeenAsIs(pair, w, part);
  }

  /** An appliable cloud edit is safe from passes that read the part and do not fail to write it, however else they fail. */
  lemma {:induction false} RemoteEditSurvivesEveryRun(pair: Pair, ws: seq<Weather>, part: Part)
    requires Readable(pair) && RemoteSafe(pair, part) && Appliable(part, pair.remote)
    requires forall i :: 0 <= i < |ws| ==> ReadsPart(ws[i], part) && (part == Config || WriteOf(ws[i], part) != NotWritten)
    ensures RemoteKept(pair, ws, part, RemoteOf(pair, part))
    decreases |ws|
  {
    hide RemoteSafe, LosesEdit;
    if ws != [] {
      var after := Reconcile(pair, ws[0]);
      StaysReadable(pair, ws[0]);
      LosesByPullOnly(pair, ws[0], part);
      PassLosesExactly(pair, ws[0], part);
      AppliableByHash(part, pair.remote, after.remote);
      RemoteEditSurvivesEveryRun(after, ws[1..], part);
    }
  }

  /** A pass over an unappliable edit keeps it exactly if it pushes nothing over it and, when it records, has the old base to record. */
  predicate HoldsOff(pair: Pair, w: Weather, part: Part) {
    !PushTakes(pair, w, part) && (Completes(pair, w) ==> ActionFor(pair, w, part) == Push && w.read.state)
  }

  predicate AlwaysHoldsOff(pair: Pair, ws: seq<Weather>, part: Part)
    decreases |ws|
  {
    ws == [] || (HoldsOff(pair, ws[0], part) && AlwaysHoldsOff(Reconcile(pair, ws[0]), ws[1..], part))
  }

  /** A pass that reads the part holds off only by not completing. */
  lemma ReadingHoldsOffExactly(pair: Pair, w: Weather, part: Part)
    requires RemoteSafe(pair, part) && LocalOf(pair, part) != RemoteOf(pair, part) && ReadsPart(w, part)
    ensures HoldsOff(pair, w, part) <==> !Completes(pair, w)
  {
    SeenAsIs(pair, w, part);
  }

  /** A cloud edit that cannot be applied, such as a color name, lives exactly as long as every pass holds off. */
  lemma {:induction false} UnappliableEditIsLost(pair: Pair, ws: seq<Weather>, part: Part)
    requires Readable(pair) && RemoteSafe(pair, part)
    requires LocalOf(pair, part) != RemoteOf(pair, part) && !Appliable(part, pair.remote)
    ensures RemoteKept(pair, ws, part, RemoteOf(pair, part)) <==> AlwaysHoldsOff(pair, ws, part)
    decreases |ws|
  {
    hide RemoteSafe;
    if ws != [] {
      var after := Reconcile(pair, ws[0]);
      StaysReadable(pair, ws[0]);
      PassLosesExactly(pair, ws[0], part);
      NeverPulled(pair, ws[0], part);
      LocalAfter(pair, ws[0], part);
      if RemoteSafe(after, part) && RemoteOf(after, part) == RemoteOf(pair, part) {
        AppliableByHash(part, pair.remote, after.remote);
        UnappliableEditIsLost(after, ws[1..], part);
      }
    }
  }

  lemma NeverPulled(pair: Pair, w: Weather, part: Part)
    requires !Appliable(part, pair.remote)
    ensures !PullTakes(pair, w, part)
  {
  }

  // ---------------------------------------------------------------------
  // Values nobody edited
  // ---------------------------------------------------------------------

  predicate BothHold(pair: Pair, ws: seq<Weather>, part: Part, value: Hash)
    decreases |ws|
  {
    && LocalOf(pair, part) == RemoteOf(pair, part) == value
    && (ws == [] || BothHold(Reconcile(pair, ws[0]), ws[1..], part, value))
  }

  /** The push of a misread value took effect. */
  predicate PushesMisread(pair: Pair, w: Weather, part: Part) {
    PushTakes(pair, w, part) && SeenOf(pair, w, part) != LocalOf(pair, part)
  }

  predicate NeverPushesMisread(pair: Pair, ws: seq<Weather>, part: Part)
    decreases |ws|
  {
    ws == [] || (!PushesMisread(pair, ws[0], part) && NeverPushesMisread(Reconcile(pair, ws[0]), ws[1..], part))
  }

  /** A value both sides hold stays with both, through whatever the passes meet, exactly if none pushes a misread one. */
  lemma {:induction false} UneditedSurvivesExactly(pair: Pair, ws: seq<Weather>, part: Part)
    requires Readable(pair) && LocalOf(pair, part) == RemoteOf(pair, part)
    ensures BothHold(pair, ws, part, LocalOf(pair, part)) <==> NeverPushesMisread(pair, ws, part)
    decreases |ws|
  {
    if ws != [] {
      var after := Reconcile(pair, ws[0]);
      StaysReadable(pair, ws[0]);
      LocalAfter(pair, ws[0], part);
      RemoteAfter(pair, ws[0], part);
      if LocalOf(after, part) == RemoteOf(after, part) == LocalOf(pair, part) {
        UneditedSurvivesExactly(after, ws[1..], part);
      }
    }
  }

  // ---------------------------------------------------------------------
  // How values are lost
  // ---------------------------------------------------------------------

  predicate NeverPushed(pair: Pair, ws: seq<Weather>, part: Part)
    decreases |ws|
  {
    ws == [] || (!PushTakes(pair, ws[0], part) && NeverPushed(Reconcile(pair, ws[0]), ws[1..], part))
  }

  /** The cloud holds what it held, or what the pass of the last push had read. */
  lemma {:induction false} LastPushStands(pair: Pair, ws: seq<Weather>, part: Part)
    requires Readable(pair)
    ensures NeverPushed(pair, ws, part) ==> RemoteOf(Passes(pair, ws), part) == RemoteOf(pair, part)
    ensures ws != [] && PushTakes(pair, ws[0], part) && NeverPushed(Reconcile(pair, ws[0]), ws[1..], part) ==>
      RemoteOf(Passes(pair, ws), part) == SeenOf(pair, ws[0], part)
    decreases |ws|
  {
    if ws != [] {
      StaysReadable(pair, ws[0]);
      RemoteAfter(pair, ws[0], part);
      LastPushStands(Reconcile(pair, ws[0]), ws[1..], part);
    }
  }

  lemma {:induction false} KeptAtTheEnd(pair: Pair, ws: seq<Weather>, part: Part, value: Hash)
    requires LocalKept(pair, ws, part, value)
    ensures LocalOf(Passes(pair, ws), part) == value && LocalSafe(Passes(pair, ws), part)
    decreases |ws|
  {
    if ws != [] {
      KeptAtTheEnd(Reconcile(pair, ws[0]), ws[1..], part, value);
    }
  }

  /**
   * What a lost pull leads to: unless a later pass endangers it, the local side
   * keeps the old value for good and every later pass that reads it tries to push it
   * over the cloud's edit, which stands until the first push that takes effect and
   * then gives way to what that pass has read.
   */
  lemma {:induction false} LostPullIsPushedBack(pair: Pair, w: Weather, ws: seq<Weather>, part: Part)
    requires Readable(pair) && LosesPull(pair, w, part) && LocalOf(pair, part) != RemoteOf(pair, part)
    ensures
      var once := Reconcile(pair, w);
      var end := Passes(once, ws);
      && (NeverEndangered(once, ws, part) ==>
            && LocalOf(end, part) == LocalOf(pair, part)
            && (LocalOf(end, part) != RemoteOf(end, part) ==>
                  forall w' :: ReadsPart(w', part) ==> ActionFor(end, w', part) == Push))
      && (NeverPushed(once, ws, part) ==> RemoteOf(end, part) == RemoteOf(pair, part))
      && (ws != [] && PushTakes(once, ws[0], part) && ReadsPart(ws[0], part) && NeverPushed(Reconcile(once, ws[0]), ws[1..], part) ==>
            RemoteOf(end, part) == LocalOf(pair, part))
  {
    var once := Reconcile(pair, w);
    var end := Passes(once, ws);
    StaysReadable(pair, w);
    LocalAfter(pair, w, part);
    RemoteAfter(pair, w, part);
    BaseAfter(pair, w, part);
    LastPushStands(once, ws, part);
    LocalEditSurvivesExactly(once, ws, part);
    if NeverEndangered(once, ws, part) {
      KeptAtTheEnd(once, ws, part, LocalOf(once, part));
      forall w' | ReadsPart(w', part) && LocalOf(end, part) != RemoteOf(end, part)
        ensures ActionFor(end, w', part) == Push
      {
        SeenAsIs(end, w', part);
      }
    }
    if ws != [] && ReadsPart(ws[0], part) {
      SeenAsIs(once, ws[0], part);
    }
  }

  /**
   * Emptying the model in the cloud does not survive: the pass records it as
   * common ground without applying it, and the next pass pushes the old model back.
   */
  lemma EmptiedModelIsPushedBack(pair: Pair, w: Weather, w': Weather)
    requires Readable(pair) && ReadsPart(w, Config) && Completes(pair, w)
    requires ReadsPart(w', Config) && Runs(w') && (w'.push.Accepted? || w'.push == Unreachable(true))
    requires BaseOf(pair.base, Config) == Some(LocalOf(pair, Config))
    requires pair.local.model != ""
    requires pair.remote.model == ""
    ensures
      var once := Reconcile(pair, w);
      var twice := Reconcile(once, w');
      && LocalOf(once, Config) == LocalOf(pair, Config)
      && BaseOf(once.base, Config) == Some(RemoteOf(pair, Config))
      && RemoteOf(twice, Config) == LocalOf(pair, Config)
  {
    var once := Reconcile(pair, w);
    SeenAsIs(pair, w, Config);
    SeenAsIs(once, w', Config);
    StaysReadable(pair, w);
    LocalAfter(pair, w, Config);
    RemoteAfter(pair, w, Config);
    BaseAfter(pair, w, Config);
    RemoteAfter(once, w', Config);
  }

  /** A pass that cannot read the persona pushes an empty one, and the answer gets lost. */
  predicate ErasesUnheard(w: Weather) {
    Runs(w) && !w.read.soul && w.read.state && w.push == Unreachable(true)
  }

  /** A pass that reads the persona and whose pulls arrive, with the cloud's side the later one. */
  predicate PullsPersona(pair: Pair, w: Weather) {
    ReadsPart(w, Soul) && PushReturns(pair, w) && WriteOf(w, Soul) != NotWritten && Mtime(w, Soul) <= w.remoteMs
  }

  /**
   * Two passes, one failed read and one lost answer erase a persona on both sides:
   * one that only the local side had, and one that nobody had edited.
   */
  lemma FailedReadErasesPersona(pair: Pair, w: Weather, w': Weather)
    requires Readable(pair) && pair.local.soul != "" && pair.remote.soul != ""
    requires BaseOf(pair.base, Soul) == Some(RemoteOf(pair, Soul))
    requires ErasesUnheard(w) && PullsPersona(Reconcile(pair, w), w')
    ensures
      var end := Reconcile(Reconcile(pair, w), w');
      end.local.soul == "" && end.remote.soul == ""
  {
    var once := Reconcile(pair, w);
    StaysReadable(pair, w);
    LocalAfter(pair, w, Soul);
    RemoteAfter(pair, w, Soul);
    BaseAfter(pair, w, Soul);
    NotCompleted(pair, w);
    SeenAsIs(once, w', Soul);
    LocalAfter(once, w', Soul);
    RemoteAfter(once, w', Soul);
    var end := Reconcile(once, w');
    assert LocalOf(end, Soul) == SoulHash(end.local.soul) && RemoteOf(end, Soul) == SoulHash(end.remote.soul);
  }

  lemma NotCompleted(pair: Pair, w: Weather)
    requires PushTakes(pair, w, Soul) && w.push.Unreachable?
    ensures !Completes(pair, w)
  {
    var parts := WithAction(pair, w, Push, PARTS);
    AllParts(Soul);
    BodyIsEmpty(parts, SeenLocal(pair.local, w));
    assert Soul in parts;
  }

  /** And one failed read lets an accepted push of the empty persona overwrite the cloud's edit, if the local file is the later one. */
  lemma FailedReadOverwritesCloudEdit(pair: Pair, w: Weather)
    requires Readable(pair) && pair.local.soul != "" && pair.remote.soul != "" && pair.remote.soul != pair.local.soul
    requires BaseOf(pair.base, Soul) == Some(LocalOf(pair, Soul))
    requires Runs(w) && !w.read.soul && w.push.Accepted? && Mtime(w, Soul) > w.remoteMs
    ensures Reconcile(pair, w).remote.soul == "" && !LosesPull(pair, w, Soul)
  {
    RemoteAfter(pair, w, Soul);
    assert RemoteOf(Reconcile(pair, w), Soul) == SoulHash(Reconcile(pair, w).remote.soul);
  }
}
