# Early stopping monitor, modelled in Dafny

This project models the `EarlyStopping` class of `utils.py`. The class is a
per-epoch decision object for a training loop. It is built once with a
patience, a percentage tolerance `delta` and an ordered mapping from metric
name to direction (`'low'` or anything else). It is then called once per
epoch with the current value of every metric. The class:

- keeps the best tuple of metric values seen so far and the epoch it came from;
- requests a checkpoint save whenever that tuple is replaced;
- counts the comparison calls (those after the baseline) that did not improve;
- raises a stop flag once that count reaches the patience.

Files:

- `results.dfy` (module `Results`): `Option` for Python's `None` and `Result`
  for the `ValueError`s the class raises.
- `early_stopping.dfy` (module `EarlyStopping`): the configuration, the state
  record and the pure step function. `Create` models `__init__`. `Step`
  models one `__call__`. The per-metric test is `Beats`: strict less-than
  for `'low'`, strict greater-than otherwise, against
  `best * (1 + delta / 100)` with the signed delta.
- `stopping_runs.dfy` (module `StoppingRuns`): sequences of calls (`Run`) and
  the invariants that hold across them.
- `stopping_scenarios.dfy` (module `StoppingScenarios`): worked runs on
  concrete values.

A call that raises yields only the error and no new state, so the caller's
state is unchanged by a failed call.

The model follows the code of `utils.py`, including where its docstring
reads otherwise:

- The docstring describes patience as how long to wait "after last time"
  the metric improved (utils.py:9). The improving branch does not reset the
  counter, though (utils.py:65-68). The counter is therefore the number of
  all comparison calls after the baseline that did not improve, not the
  number of consecutive ones. A run can stop after fewer consecutive stalls
  than the patience
  (`StoppingScenarios.NoResetStopsAfterTwoConsecutiveStalls`).
- The docstring says that without metrics, `loss = 'low'` is used
  (utils.py:16). The code raises `ValueError` instead (utils.py:21-22), and
  `Create` returns the `NoMetricProvided` error.
- The docstring lists the directions as `'low'`/`'high'` (utils.py:15). No
  direction is validated, though. Any string other than `'low'` selects
  greater-than and a positive delta (utils.py:27, 30).
- The baseline branch has no `return` (utils.py:56-59), while the comparison
  branch returns the flag (utils.py:75). So the baseline call returns `None`.
  `Step` returns a `Result<Outcome, Error>`. The `ret` field of the `Outcome`
  is an `Option<bool>`, and it is `None` exactly on the baseline call.
- Patience is not checked (utils.py:28) and may be any integer. "The flag is
  set exactly when the counter has reached patience" holds from a fresh
  monitor only when the patience is at least 1.

The improvement threshold is relative. With a negative best value and a
positive tolerance, it therefore moves the wrong way. That contradicts the
docstring's "minimum percentage change" (utils.py:13). For a `'low'` metric
with a negative best and a positive tolerance, an unchanged value counts as
an improvement (`EarlyStopping.NegativeBestAcceptsUnchanged`). For example,
with best -1.0 and a 10% tolerance, the worse value -0.95 is accepted
(`EarlyStopping.NegativeBestInvertsTolerance`). The model keeps this
behaviour. For non-negative best values and a non-negative tolerance, an
improvement is strictly better (`EarlyStopping.ToleranceDemandsStrictGain`).

## Model

| member | source | states |
|---|---|---|
| `EarlyStopping.Create` | utils.py:19-37 | Patience, verbosity and tolerance default to 10, false and 0.0, and the mapping defaults to empty. An empty mapping fails with the "no metric" error, and only an empty one fails. Otherwise the result has one metric per pair, in the given order. A `'low'` pair gets less-than and `-delta`. Any other direction gets greater-than and `+delta`. The patience is kept. Every best entry is unset, there is no best epoch, the counter is 0 and the flag is false. |
| `EarlyStopping.Step` | utils.py:39-75 | A call fails exactly when the values are empty ("missing") or their names differ from the configured set ("not matching"). A save is requested exactly when a best entry is unset or some metric beats its best. A save replaces the whole best tuple with the call's values in configured order and sets the best epoch; it keeps the counter and the flag. Any other call leaves the best tuple and epoch alone and adds exactly 1 to the counter. Such a call sets the flag when the counter reaches patience and keeps it otherwise. It warns exactly when 5 * counter >= 4 * patience. Only the baseline call returns `None`; every other call returns the new flag. |
| `EarlyStopping.AnyBeats` | utils.py:63 | The `any(map(...))` test is true exactly when some index, within the shortest of the three lists, has a score beating its best under that metric's operator and signed tolerance. |
| `EarlyStopping.Align` | utils.py:51 | When every configured name is supplied, the score list has one entry per name, in configured order, each being that name's value. Otherwise it is no longer than the name list. |
| `EarlyStopping.NameSet` | utils.py:46 | The set of configured names holds every configured name and nothing else. |
| `EarlyStopping.ZeroDeltaIsStrict` | utils.py:63 | With tolerance 0 the test is strict `<` or `>` against the best itself, so an equal value never improves. |
| `EarlyStopping.ToleranceDemandsStrictGain` | utils.py:30 | Take a non-negative tolerance and a non-negative best. A value that beats it is strictly smaller for `'low'` and strictly larger for any other direction. |
| `EarlyStopping.NegativeBestAcceptsUnchanged` | utils.py:63 | For a `'low'` metric with a negative best and a positive tolerance, the unchanged best value itself passes the test. |
| `EarlyStopping.NegativeBestInvertsTolerance` | utils.py:63 | For a `'low'` metric with best -1.0 and tolerance 10%, the worse value -0.95 passes the test. |
| `StoppingRuns.Run` | utils.py:44-49 | A run of calls is accepted exactly when every call's values are non-empty and match the configured names. It then yields one outcome per call. |
| `StoppingRuns.RunChains` | utils.py:39-75 | In an accepted run, outcome `i` is the step of call `i` applied to the state that call `i - 1` left. |
| `StoppingRuns.ChainIsRun` | utils.py:39-75 | The converse of `RunChains`: outcomes that answer the calls one by one, each the step of its call from the state the previous outcome left, are exactly what the run yields. |
| `StoppingRuns.RunIsChain` | utils.py:39-75 | Every accepted run answers its calls one by one in that sense, so together with `ChainIsRun` a run yields `outs` exactly when `outs` chains. |
| `StoppingRuns.FirstCallRecordsBaseline` | utils.py:54-59 | A freshly built monitor is consistent. Its first accepted call records the values and epoch whatever they are, requests a save, returns `None` and leaves the counter at 0 and the flag false. |
| `StoppingRuns.SaveIffBestReassigned` | utils.py:56-69 | A save is requested exactly when the step records the call's values and epoch as the new best, either as baseline or as an improvement. A step that changes the best tuple or best epoch has requested a save. |
| `StoppingRuns.EarlyStopNeverResets` | utils.py:73-74 | Along a run the flag never goes from true back to false, and the counter never decreases. |
| `StoppingRuns.CounterCountsStalls` | utils.py:65-70 | After a run the counter equals its starting value plus the number of calls that did not request a save. |
| `StoppingRuns.FreshCounterIsStallCount` | utils.py:31 | From a fresh monitor, the counter is exactly the number of non-improving calls so far. |
| `StoppingRuns.RunKeepsInvariants` | utils.py:51-75 | Every state of a run from a consistent state is consistent: one best entry per metric, either all unset with no best epoch or all set with one. If the flag mirrored "counter >= patience" at the start, it mirrors it after every call. |
| `StoppingRuns.TraceMonotone` | utils.py:65-74 | In any sequence of outcomes where each step does the bookkeeping of one call, the flag stays set once it is set, and the counter never decreases from one state to a later one. |
| `StoppingRuns.TraceCounter` | utils.py:65-70 | In such a sequence, the counter after `j` steps is its starting value plus the number of the first `j` outcomes without a save. |
| `StoppingRuns.TraceInvariants` | utils.py:51-75 | In such a sequence starting from a consistent state, every later state is consistent. The flag keeps mirroring "counter >= patience" if it did at the start. |
| `StoppingRuns.TraceBest` | utils.py:56-68 | In such a sequence, the best tuple and epoch after `j` steps come from the last saving call among the first `j`. If there was none, they are the starting ones. |
| `StoppingRuns.StopIffPatienceReached` | utils.py:69-74 | With patience at least 1, after every call of a run from a fresh monitor the flag is true exactly when the counter is at least the patience. |
| `StoppingRuns.BestIsLastSaved` | utils.py:56-68 | After a run, the best tuple and best epoch are the values and epoch of the last call that requested a save. If no call did, they are unchanged. |
| `StoppingScenarios.SingleMetricBaselineThenImprovement` | utils.py:56-68 | Building with only a path fails with the "no metric" error. For `loss`/`'low'`, patience 3: the first call records 1.0, requests a save and returns `None`. Then 0.8 improves, requests a save and returns false. |
| `StoppingScenarios.SingleMetricStallsToStop` | utils.py:69-75 | Continuing that run, 0.9, 0.95 and 0.99 do not improve. The counter goes 1, 2, 3, only the last call warns, and the last call returns true. |
| `StoppingScenarios.NoResetStopsAfterTwoConsecutiveStalls` | utils.py:65-74 | For `loss`/`'low'`, patience 3, the run 1.0, 0.9, 0.95, 0.85, 0.9, 0.95 from a fresh monitor is accepted. The call at epoch 3 saves, the last two do not, and the last returns true. The final state has best 0.85 from epoch 3, counter 3 and the flag set: the stall at epoch 2 still counts after the improvement, so only two consecutive stalls stop it. |
| `StoppingScenarios.TwoMetricImprovementKeepsCounter` | utils.py:63-68 | For `loss` low and `acc` high with a 5% tolerance, (1.02, 0.90) improves on (1.0, 0.80) through `acc` alone. The whole tuple is replaced and the counter keeps its value. |

## Left out

- Checkpoint persistence (`torch.save` of `model.state_dict()` to `path`, utils.py:93-96) is opaque. It appears only as the `save` flag of each step's outcome. The `model` argument of a call is therefore not modelled.
- All printed text is left out: the selected-metrics message (utils.py:20), the warning's wording (utils.py:72) and the verbose checkpoint message (utils.py:82-92). Only the fact that the warning is printed is kept, as the `warn` flag.
- `lowest_loss` (utils.py:34) is never read, so it is left out.
- Keyword-argument plumbing is replaced by explicit data, and the constructor's defaults become Dafny parameter defaults. The configuration is an ordered sequence of (name, direction) pairs and a call's values are a map from name to value.
- Metric values are exact reals. IEEE rounding, NaN and NumPy comparison semantics are not modelled.
- A call that passes `None` or a non-numeric value for a metric is not modelled, because values are reals.
- Epochs are integers. The source stores the epoch and, when `verbose` is set, prints `best_epoch + 1` (utils.py:83). That fails for a non-numeric epoch after the best tuple and epoch have already been replaced (utils.py:57-59, 66-68); this failure is not modelled.
- Failures of the persistence call cannot be expressed, because persistence is not modelled.
- Distinct metric names are not required. Python keyword arguments cannot repeat a name, so a configuration with a repeated name never reaches the constructor. `Create` accepts one, and the model promises nothing about it beyond what the contracts state.
