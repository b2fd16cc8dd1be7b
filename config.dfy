/**
  The operator's configuration: construction from options, the routes
  availability store, the change-notification hook and the auto-detection
  pass that updates them in place.
 */
module Config {
  import opened Wrappers
  import opened AutoDetect
  import opened Detection

  /** Go's time.Duration: a count of nanoseconds. */
  type Duration = int

  const Second: Duration := 1_000_000_000

  /** How often the periodic detection runs unless an option says otherwise. */
  const DefaultAutoDetectFrequency: Duration := 5 * Second

  /** The fields of the options record that this model follows. */
  datatype Options = Options(autoDetectFrequency: Duration, autoscalingVersion: AutoscalingVersion)

  /** An option assigns one field of the options record. */
  datatype Option =
    | WithAutoDetectFrequency(frequency: Duration)
    | WithAutoscalingVersion(version: AutoscalingVersion)

  /** The options record New starts from, before any option is applied. */
  function Defaults(): (o: Options)
    ensures o.autoDetectFrequency == 5 * Second
    ensures o.autoscalingVersion == DefaultAutoscalingVersion
  {
    Options(DefaultAutoDetectFrequency, DefaultAutoscalingVersion)
  }

  /** One option applied to the record: the field it names takes its value, the other field is kept. */
  function Apply(o: Options, opt: Option): (r: Options)
    ensures opt.WithAutoDetectFrequency? ==>
      r.autoDetectFrequency == opt.frequency && r.autoscalingVersion == o.autoscalingVersion
    ensures opt.WithAutoscalingVersion? ==>
      r.autoscalingVersion == opt.version && r.autoDetectFrequency == o.autoDetectFrequency
  {
    match opt
    case WithAutoDetectFrequency(d) => o.(autoDetectFrequency := d)
    case WithAutoscalingVersion(v) => o.(autoscalingVersion := v)
  }

  /** The record after applying `opts` to `base` from first to last. */
  function ApplyAll(base: Options, opts: seq<Option>): Options
    decreases |opts|
  {
    if opts == [] then base else Apply(ApplyAll(base, opts[..|opts| - 1]), opts[|opts| - 1])
  }

  /** Of several options setting the frequency, the last one wins. */
  lemma {:induction false} LastFrequencyOptionWins(base: Options, opts: seq<Option>, k: nat)
    requires k < |opts| && opts[k].WithAutoDetectFrequency?
    requires forall j :: k < j < |opts| ==> !opts[j].WithAutoDetectFrequency?
    ensures ApplyAll(base, opts).autoDetectFrequency == opts[k].frequency
    decreases |opts|
  {
    var n := |opts| - 1;
    if k < n {
      var init := opts[..n];
      assert forall j :: k < j < |init| ==> init[j] == opts[j];
      LastFrequencyOptionWins(base, init, k);
    }
  }

  /** Of several options setting the autoscaling version, the last one wins. */
  lemma {:induction false} LastVersionOptionWins(base: Options, opts: seq<Option>, k: nat)
    requires k < |opts| && opts[k].WithAutoscalingVersion?
    requires forall j :: k < j < |opts| ==> !opts[j].WithAutoscalingVersion?
    ensures ApplyAll(base, opts).autoscalingVersion == opts[k].version
    decreases |opts|
  {
    var n := |opts| - 1;
    if k < n {
      var init := opts[..n];
      assert forall j :: k < j < |init| ==> init[j] == opts[j];
      LastVersionOptionWins(base, init, k);
    }
  }

  /** A field that no option sets keeps its value from `base`. */
  lemma {:induction false} UnsetFieldsKeepBase(base: Options, opts: seq<Option>)
    ensures (forall j :: 0 <= j < |opts| ==> !opts[j].WithAutoDetectFrequency?) ==>
      ApplyAll(base, opts).autoDetectFrequency == base.autoDetectFrequency
    ensures (forall j :: 0 <= j < |opts| ==> !opts[j].WithAutoscalingVersion?) ==>
      ApplyAll(base, opts).autoscalingVersion == base.autoscalingVersion
    decreases |opts|
  {
    if opts != [] {
      var init := opts[..|opts| - 1];
      assert forall j :: 0 <= j < |init| ==> init[j] == opts[j];
      UnsetFieldsKeepBase(base, init);
    }
  }

  /** The loop of New: start from the defaults and let each option update the record in turn. */
  method ApplyOptions(opts: seq<Option>) returns (o: Options)
    ensures o == ApplyAll(Defaults(), opts)
  {
    o := Defaults();
    var i := 0;
    while i < |opts|
      invariant 0 <= i <= |opts|
      invariant o == ApplyAll(Defaults(), opts[..i])
    {
      assert opts[..i + 1][..i] == opts[..i];
      o := Apply(o, opts[i]);
      i := i + 1;
    }
    assert opts[..|opts|] == opts;
  }

  /** Holds the current availability of the OpenShift Routes API. */
  class RoutesStore {
    var current: OpenShiftRoutesAvailability

    /** A new store holds "not available". */
    constructor ()
      ensures current == RoutesNotAvailable
    {
      current := RoutesNotAvailable;
    }

    method Set(ora: OpenShiftRoutesAvailability)
      modifies this
      ensures current == ora
    {
      current := ora;
    }

    method Get() returns (ora: OpenShiftRoutesAvailability)
      ensures ora == current
    {
      ora := current;
    }
  }

  /** A new store reads "not available", and reads back whatever was set last. */
  method StoreSetThenGet(x: OpenShiftRoutesAvailability, y: OpenShiftRoutesAvailability)
    returns (initial: OpenShiftRoutesAvailability, afterSet: OpenShiftRoutesAvailability)
    ensures initial == RoutesNotAvailable
    ensures afterSet == y
  {
    var store := new RoutesStore();
    initial := store.Get();
    store.Set(x);
    store.Set(y);
    afterSet := store.Get();
  }

  /** Identifies a registered change callback. */
  type CallbackId = nat

  /**
    The callbacks to run when the routes availability changes. What running
    them does is outside this model: Do reports the outcome it is given and
    counts its own invocations in `calls`.
   */
  class ChangeHandler {
    var callbacks: seq<CallbackId>
    ghost var calls: nat

    constructor ()
      ensures callbacks == [] && calls == 0
    {
      callbacks := [];
      calls := 0;
    }

    method Register(f: CallbackId)
      modifies this
      ensures callbacks == old(callbacks) + [f]
      ensures calls == old(calls)
    {
      callbacks := callbacks + [f];
    }

    method Do(outcome: Outcome) returns (err: Outcome)
      modifies this
      ensures err == outcome
      ensures callbacks == old(callbacks)
      ensures calls == old(calls) + 1
    {
      err := outcome;
      calls := calls + 1;
    }
  }

  class Config {
    var autoDetectFrequency: Duration
    var autoscalingVersion: AutoscalingVersion
    const openshiftRoutes: RoutesStore
    const onOpenShiftRoutesChange: ChangeHandler

    /** The detected state as one value. */
    ghost function Snapshot(): State
      reads this, openshiftRoutes, onOpenShiftRoutesChange
    {
      State(openshiftRoutes.current, autoscalingVersion, onOpenShiftRoutesChange.calls)
    }

    /** New: defaults, then the options in order; a fresh store and a fresh handler. */
    constructor New(opts: seq<Option>)
      ensures autoDetectFrequency == ApplyAll(Defaults(), opts).autoDetectFrequency
      ensures autoscalingVersion == ApplyAll(Defaults(), opts).autoscalingVersion
      ensures fresh(openshiftRoutes) && fresh(onOpenShiftRoutesChange)
      ensures openshiftRoutes.current == RoutesNotAvailable
      ensures onOpenShiftRoutesChange.callbacks == [] && onOpenShiftRoutesChange.calls == 0
    {
      var o := ApplyOptions(opts);
      autoDetectFrequency := o.autoDetectFrequency;
      autoscalingVersion := o.autoscalingVersion;
      openshiftRoutes := new RoutesStore();
      onOpenShiftRoutesChange := new ChangeHandler();
    }

    /** One detection pass; the probes' and the handler's answers are given in `p`. */
    method AutoDetect(p: Answers) returns (err: Outcome)
      modifies openshiftRoutes, onOpenShiftRoutesChange, this`autoscalingVersion
      ensures PassResult(Snapshot(), err) == Detect(old(Snapshot()), p)
      ensures onOpenShiftRoutesChange.callbacks == old(onOpenShiftRoutesChange.callbacks)
    {
      if p.routes.Err? {
        return Fail(p.routes.error);
      }
      var ora := p.routes.value;

      var current := openshiftRoutes.Get();
      if current != ora {
        openshiftRoutes.Set(ora);
        var _ := onOpenShiftRoutesChange.Do(p.handler);
        // a failed callback does not fail the pass: detection itself worked
      }

      if p.hpa.Err? {
        return Fail(p.hpa.error);
      }
      autoscalingVersion := p.hpa.value;
      return Nil;
    }

    /**
      Runs the first pass synchronously and returns its error; the periodic
      passes that follow in the background are not part of this model.
     */
    method StartAutoDetect(p: Answers) returns (err: Outcome)
      modifies openshiftRoutes, onOpenShiftRoutesChange, this`autoscalingVersion
      ensures PassResult(Snapshot(), err) == Detect(old(Snapshot()), p)
      ensures onOpenShiftRoutesChange.callbacks == old(onOpenShiftRoutesChange.callbacks)
    {
      err := AutoDetect(p);
    }

    method OpenShiftRoutes() returns (ora: OpenShiftRoutesAvailability)
      ensures ora == openshiftRoutes.current
    {
      ora := openshiftRoutes.Get();
    }

    method AutoscalingVersion() returns (v: AutoscalingVersion)
      ensures v == autoscalingVersion
    {
      v := autoscalingVersion;
    }

    method RegisterOpenShiftRoutesChangeCallback(f: CallbackId)
      modifies onOpenShiftRoutesChange
      ensures onOpenShiftRoutesChange.callbacks == old(onOpenShiftRoutesChange.callbacks) + [f]
      ensures Snapshot() == old(Snapshot())
    {
      onOpenShiftRoutesChange.Register(f);
    }
  }

  /**
    A configuration built by New and started at once reports exactly the error
    of its first pass, which starts from "not available", the configured
    autoscaling version and no notifications. The probe answers in `p` stand
    for a detector that some option supplied: the defaults set none, and
    without one the source's first pass does not return an error but fails
    when it queries the routes probe.
   */
  method NewThenStart(opts: seq<Option>, p: Answers) returns (err: Outcome)
    ensures err == Detect(State(RoutesNotAvailable, ApplyAll(Defaults(), opts).autoscalingVersion, 0), p).err
  {
    var c := new Config.New(opts);
    err := c.StartAutoDetect(p);
  }
}
