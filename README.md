# Auto-detected configuration of the agents operator

A model of the operator's configuration package (`src/internal/config/main.go`).
At start-up and then periodically, the configuration asks the environment two
questions: is the OpenShift Routes API available, and which autoscaling (HPA)
API version is preferred. It keeps the routes answer in a small store. It runs
the registered change callbacks when that answer changes. It keeps the
autoscaling version in a plain field.

The model has four modules:

- `Wrappers` holds Go's `(T, error)` and `error` returns as the `Result` and
  `Outcome` datatypes.
- `AutoDetect` holds the two enumerations the configuration stores and the
  default autoscaling version. Their values are assumed (see "Left out").
- `Detection` holds one auto-detection pass as a function on values
  (`Detect`), consecutive passes (`Passes`) and the lemmas about them.
- `Config` holds the imperative part. `RoutesStore` is the routes
  availability store. `ChangeHandler` is the change-notification hook; its
  ghost counter `calls` counts how often `Do` ran. `Config` is the
  configuration object, and its `AutoDetect` method updates the store, the
  handler and the `autoscalingVersion` field in place. The method is proved to
  produce exactly the state and error that `Detection.Detect` gives for the
  old state. `ApplyOptions` is the options loop of `New`.

The two probe answers and the change handler's answer are inputs of a pass
(the `Answers` record). The HPA answer is used only when the routes probe
succeeds, and the handler's answer only when the routes value changed, as in
the source.

## Model

| member | source | states |
|---|---|---|
| `Detection.Detect` | src/internal/config/main.go:105-130 | a pass returns nil exactly when both probes succeed, otherwise the routes error, or the HPA error when only the HPA probe failed; the handler runs once exactly when a successful routes probe differs from the stored value, and never more than once |
| `Detection.RoutesProbeFailureChangesNothing` | src/internal/config/main.go:108-111 | a failed routes probe returns its error and leaves the routes value, the autoscaling version and the handler count unchanged |
| `Detection.SameRoutesNoNotification` | src/internal/config/main.go:113 | a probed routes value equal to the stored one leaves the store as it is and does not run the handler |
| `Detection.ChangedRoutesNotifiedOnce` | src/internal/config/main.go:113-116 | a probed routes value different from the stored one is stored, and the handler runs exactly once |
| `Detection.HandlerOutcomeIgnored` | src/internal/config/main.go:116-119 | the pass's error and resulting state are the same whatever the change handler reports, so a failing callback never fails the pass |
| `Detection.HpaFailureKeepsRoutesUpdate` | src/internal/config/main.go:113-125 | when the routes probe succeeds and the HPA probe fails, the HPA error is returned, the routes update of that pass is kept and the autoscaling version is unchanged |
| `Detection.BothProbesSucceed` | src/internal/config/main.go:122-129 | when both probes succeed the pass returns nil and the autoscaling version is the probed one, stored without comparison and without notification |
| `Detection.RepeatedPassIsQuiet` | src/internal/config/main.go:113-126 | a second pass with the same answers changes no state and runs no callback |
| `Detection.PassesTrackObservations` | src/internal/config/main.go:105-130 | over consecutive passes the handler runs once per change of the successfully probed routes value, failed passes do not stop later ones, the store ends with the last probed routes value, and the autoscaling version is the last one detected by a fully successful pass |
| `Detection.Passes` | src/internal/config/main.go:97-101 | consecutive passes, each on the state the previous one left, go on after a failed pass; the handler count never goes down and rises by at most one per pass (`Detection.PassesTrackObservations` gives the exact count and final values) |
| `Config.Defaults` | src/internal/config/main.go:55-62 | the options record starts with a 5-second detection frequency and the default autoscaling version |
| `Config.Apply` | src/internal/config/main.go:64 | one option sets the field it names to its value and keeps the other field |
| `Config.ApplyOptions` | src/internal/config/main.go:55-65 | the loop over the options yields the defaults with every option applied in order |
| `Config.LastFrequencyOptionWins` | src/internal/config/main.go:63-65 | when several options set the detection frequency, the last of them decides it |
| `Config.LastVersionOptionWins` | src/internal/config/main.go:63-65 | when several options set the autoscaling version, the last of them decides it |
| `Config.UnsetFieldsKeepBase` | src/internal/config/main.go:55-65 | a field that no option sets keeps its default |
| `Config.RoutesStore.constructor` | src/internal/config/main.go:193-197 | a new store holds "not available" |
| `Config.RoutesStore.Set` | src/internal/config/main.go:204-208 | the store holds the value set |
| `Config.RoutesStore.Get` | src/internal/config/main.go:210-215 | reading returns the stored value |
| `Config.StoreSetThenGet` | src/internal/config/main.go:193-215 | a new store reads "not available", and after two sets it reads the last value set |
| `Config.ChangeHandler.constructor` | src/internal/config/main.go:61 | a new change handler has no callbacks and has run no notification |
| `Config.ChangeHandler.Register` | src/internal/config/main.go:184-186 | registering appends the callback to the handler's list and runs nothing |
| `Config.ChangeHandler.Do` | src/internal/config/main.go:116 | one call of the handler is counted once, leaves the callback list unchanged and reports the callbacks' outcome |
| `Config.Config.New` | src/internal/config/main.go:53-83 | the configuration takes the frequency and autoscaling version from the defaults with the options applied, and gets a fresh store reading "not available" and a fresh handler with no callbacks |
| `Config.Config.AutoDetect` | src/internal/config/main.go:105-130 | the pass changes the store, the handler count and the autoscaling version, and returns the error, exactly as `Detection.Detect` gives for the old state; the callback list is unchanged |
| `Config.Config.StartAutoDetect` | src/internal/config/main.go:87-92 | the start-up returns exactly the error of its first, synchronous pass and leaves that pass's state |
| `Config.Config.OpenShiftRoutes` | src/internal/config/main.go:133-135 | returns the value held by the routes store |
| `Config.Config.AutoscalingVersion` | src/internal/config/main.go:138-140 | returns the autoscaling version field |
| `Config.Config.RegisterOpenShiftRoutesChangeCallback` | src/internal/config/main.go:184-186 | appends the callback to the change handler and changes no detected state |
| `Config.NewThenStart` | src/internal/config/main.go:53-92 | a configuration made by `New` and started at once returns the error of one pass from "not available", the configured autoscaling version and no notifications |

## Left out

- The periodic loop (`periodicAutoDetect`, the goroutine started in `StartAutoDetect`, the ticker): this is concurrency and timing. The loop logs an error and keeps going, and `Detection.Passes` reflects that order of passes. The detection frequency is kept as a field but never used.
- The mutex of the routes store: the store is a plain field, because the lock matters only under concurrent callers.
- All logging calls: they have no effect on results or state.
- The probes (`OpenShiftRoutesAvailability`, `HPAVersion`): they query the Kubernetes API, and their answers are inputs of a pass.
- The autodetect package is not part of this model, so its enumerations and its default are assumed. The routes enumeration is taken as three-valued (available, not available, unknown). The autoscaling versions are taken as v2, v2beta2 and unknown, with v2 as the default. The lemmas about passes and options hold whichever values exist. Only the members built on `Config.Defaults` depend on the assumed default: `Config.Defaults` itself, `Config.ApplyOptions`, `Config.Config.New` and `Config.NewThenStart`.
- `Config.ChangeHandler.Do`: callbacks are assumed not to reach back into the configuration. In the source, `Do` runs caller-supplied functions in the middle of a pass. Such a function could call `AutoDetect` or `RegisterOpenShiftRoutesChangeCallback` on the same configuration. In the model, `Do` changes only the handler's call count and keeps its callback list, so the proof that `Config.Config.AutoDetect` follows `Detection.Detect` holds only for callbacks that do not touch the configuration. Re-entrant callbacks are not modelled.
- The change handler's internals (`newOnChange`, `Register`, `Do`) are not part of this model. Callbacks are identified by number. `Do` is one call whose outcome is given. The order in which callbacks run and how their errors are combined are not modelled.
- The options file is not part of this model. Each option is modelled as an assignment to one field of the options record. Only the detection frequency and the autoscaling version are followed. The logger, the detector, the version and the other fields are not.
- The image getters, `LabelsFilter` and `version.Get`: they are plain field reads or foreign calls.
- `Config.Config`: the model has one shared `Config` object. In the source `New` returns `Config` by value. A copy shares the routes store, because the store is behind a pointer. A copy does not share the `autoscalingVersion` field, so after a copy is made, a pass run on one does not change the other's version. Such copies are not modelled.
- `Config.NewThenStart`: a pass takes its probe answers as inputs, which assumes that some option supplied a detector. The defaults set none. Without one, the source's first pass does not return an error: it fails when it queries the routes probe at `src/internal/config/main.go:108`. That failure is not modelled.
- `Config.Config.New`: it always creates a fresh routes store and a fresh change handler. Options that replace them are not modelled.
