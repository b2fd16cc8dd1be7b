/**
  The auto-detection pass of the operator's configuration, as a function on
  values: what one pass does to the detected state, and what a run of
  consecutive passes does. Config.Config.AutoDetect is proved to follow Detect.
 */
module Detection {
  import opened Wrappers
  import opened AutoDetect

  /**
    What a pass reads and writes: the value in the routes store, the
    autoscaling version field, and how many times the change handler's Do has
    run so far.
   */
  datatype State = State(
    routes: OpenShiftRoutesAvailability,
    autoscalingVersion: AutoscalingVersion,
    notifications: nat)

  /**
    What the outside world answers during one pass: the routes probe, the HPA
    probe (consulted only when the routes probe succeeds) and the outcome of
    the change handler's Do (consulted only on a change).
   */
  datatype Answers = Answers(
    routes: Result<OpenShiftRoutesAvailability>,
    hpa: Result<AutoscalingVersion>,
    handler: Outcome)

  datatype PassResult = PassResult(state: State, err: Outcome)

  /** One auto-detection pass from state `s`. */
  function Detect(s: State, p: Answers): (r: PassResult)
    // the pass succeeds exactly when both probes do, and otherwise reports the first probe error
    ensures r.err == Nil <==> p.routes.Ok? && p.hpa.Ok?
    ensures p.routes.Err? ==> r.err == Fail(p.routes.error)
    ensures p.routes.Ok? && p.hpa.Err? ==> r.err == Fail(p.hpa.error)
    // the handler runs once exactly when a successful routes probe differs from the stored value
    ensures r.state.notifications == s.notifications + 1 <==> p.routes.Ok? && p.routes.value != s.routes
    ensures r.state.notifications == s.notifications || r.state.notifications == s.notifications + 1
  {
    match p.routes
    case Err(e) => PassResult(s, Fail(e))
    case Ok(ora) =>
      var noticed :=
        if s.routes != ora then s.(routes := ora, notifications := s.notifications + 1)
        else s;
      match p.hpa
      case Err(e) => PassResult(noticed, Fail(e))
      case Ok(v) => PassResult(noticed.(autoscalingVersion := v), Nil)
  }

  /** A failed routes probe ends the pass with its error and changes nothing. */
  lemma RoutesProbeFailureChangesNothing(s: State, p: Answers)
    requires p.routes.Err?
    ensures Detect(s, p) == PassResult(s, Fail(p.routes.error))
  {
  }

  /** A routes value equal to the stored one is not stored again and notifies no one. */
  lemma SameRoutesNoNotification(s: State, p: Answers)
    requires p.routes == Ok(s.routes)
    ensures Detect(s, p).state.routes == s.routes
    ensures Detect(s, p).state.notifications == s.notifications
  {
  }

  /** A routes value different from the stored one is stored and notified exactly once. */
  lemma ChangedRoutesNotifiedOnce(s: State, p: Answers)
    requires p.routes.Ok? && p.routes.value != s.routes
    ensures Detect(s, p).state.routes == p.routes.value
    ensures Detect(s, p).state.notifications == s.notifications + 1
  {
  }

  /** Whatever the change handler reports, the pass returns and stores the same. */
  lemma HandlerOutcomeIgnored(s: State, p: Answers, handler: Outcome)
    ensures Detect(s, p.(handler := handler)) == Detect(s, p)
  {
  }

  /**
    A failed HPA probe after a successful routes probe returns the HPA error,
    keeps the routes update of the same pass and leaves the autoscaling
    version as it was.
   */
  lemma HpaFailureKeepsRoutesUpdate(s: State, p: Answers)
    requires p.routes.Ok? && p.hpa.Err?
    ensures Detect(s, p).err == Fail(p.hpa.error)
    ensures Detect(s, p).state.routes == p.routes.value
    ensures Detect(s, p).state.autoscalingVersion == s.autoscalingVersion
  {
  }

  /**
    When both probes succeed the pass returns nil, and the autoscaling version
    is the probed one whether or not it changed; its change notifies no one.
   */
  lemma BothProbesSucceed(s: State, p: Answers)
    requires p.routes.Ok? && p.hpa.Ok?
    ensures Detect(s, p).err == Nil
    ensures Detect(s, p).state.routes == p.routes.value
    ensures Detect(s, p).state.autoscalingVersion == p.hpa.value
    ensures p.routes.value == s.routes ==> Detect(s, p).state.notifications == s.notifications
  {
  }

  /** Repeating a pass with the same answers changes nothing more and notifies no one. */
  lemma RepeatedPassIsQuiet(s: State, p: Answers)
    ensures Detect(Detect(s, p).state, p).state == Detect(s, p).state
  {
  }

  /**
    Consecutive passes on the same configuration, each with its own answers;
    a pass that fails does not stop the ones after it.
   */
  function Passes(s: State, ps: seq<Answers>): (r: State)
    // the handler count never goes down, and rises by at most one per pass
    ensures s.notifications <= r.notifications <= s.notifications + |ps|
    decreases |ps|
  {
    if ps == [] then s else Passes(Detect(s, ps[0]).state, ps[1..])
  }

  /** The routes values of the passes whose routes probe succeeded, in order. */
  function ObservedRoutes(ps: seq<Answers>): seq<OpenShiftRoutesAvailability>
    decreases |ps|
  {
    if ps == [] then []
    else (if ps[0].routes.Ok? then [ps[0].routes.value] else []) + ObservedRoutes(ps[1..])
  }

  /** The autoscaling versions of the passes whose two probes both succeeded, in order. */
  function DetectedVersions(ps: seq<Answers>): seq<AutoscalingVersion>
    decreases |ps|
  {
    if ps == [] then []
    else (if ps[0].routes.Ok? && ps[0].hpa.Ok? then [ps[0].hpa.value] else []) + DetectedVersions(ps[1..])
  }

  /** How many times the value changes along `vs` when it starts at `from`. */
  function Transitions<T(==)>(from: T, vs: seq<T>): nat
    decreases |vs|
  {
    if vs == [] then 0 else (if vs[0] != from then 1 else 0) + Transitions(vs[0], vs[1..])
  }

  /** The last element of `vs`, or `d` when there is none. */
  function LastOr<T>(d: T, vs: seq<T>): T
  {
    if vs == [] then d else vs[|vs| - 1]
  }

  /**
    Over consecutive passes the handler runs once per transition of the
    observed routes value (failed passes are skipped, not stopped at), the
    store ends with the last observed value, and the autoscaling version is the
    last one detected by a fully successful pass.
   */
  lemma {:induction false} PassesTrackObservations(s: State, ps: seq<Answers>)
    ensures Passes(s, ps).notifications == s.notifications + Transitions(s.routes, ObservedRoutes(ps))
    ensures Passes(s, ps).routes == LastOr(s.routes, ObservedRoutes(ps))
    ensures Passes(s, ps).autoscalingVersion == LastOr(s.autoscalingVersion, DetectedVersions(ps))
    decreases |ps|
  {
    if ps != [] {
      var s1 := Detect(s, ps[0]).state;
      var rest := ps[1..];
      PassesTrackObservations(s1, rest);
      LastOrSkip(s.routes, s1.routes, if ps[0].routes.Ok? then [ps[0].routes.value] else [], ObservedRoutes(rest));
      LastOrSkip(s.autoscalingVersion, s1.autoscalingVersion,
        if ps[0].routes.Ok? && ps[0].hpa.Ok? then [ps[0].hpa.value] else [], DetectedVersions(rest));
      if ps[0].routes.Ok? {
        var obs := ObservedRoutes(ps);
        assert obs == [ps[0].routes.value] + ObservedRoutes(rest);
        assert obs[0] == ps[0].routes.value && obs[1..] == ObservedRoutes(rest);
        assert Transitions(s.routes, obs) == (if obs[0] != s.routes then 1 else 0) + Transitions(obs[0], obs[1..]);
      } else {
        assert ObservedRoutes(ps) == [] + ObservedRoutes(rest) == ObservedRoutes(rest);
      }
    }
  }

  /** Taking the last of a prefix of at most one element, then of the rest. */
  lemma LastOrSkip<T>(d: T, d1: T, head: seq<T>, tail: seq<T>)
    requires |head| <= 1
    requires d1 == LastOr(d, head)
    ensures LastOr(d, head + tail) == LastOr(d1, tail)
  {
    if tail != [] {
      assert (head + tail)[|head + tail| - 1] == tail[|tail| - 1];
    }
  }
}
