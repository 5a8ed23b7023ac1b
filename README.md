# Keras training callbacks, modelled in Dafny

This project models the three Keras callbacks of `tf_utils.callbacks` and
their argument validators, and proves properties of the model.

- **`ModelSaver`** (`saver.dfy`, module `Saver`) validates `each_n` at
  construction. After every epoch it may switch the monitored metric to
  `val_loss` or `loss` when the logs lack it. It then writes `best` on a
  strict improvement, `<epoch>` every `each_n` epochs and `last` when
  enabled, each optionally followed by the pickled optimizer state. Files
  are recorded as values (`SavedFile`), in the order they are written.
- **`CustomLearningRateScheduler`** (`scheduler.dfy`, module `Scheduler`)
  accepts exactly one of three strategies and validates it: a callable
  rule, a positive multiplier, or a table from epochs to rates. Before
  each epoch the chosen closure proposes a rate and says whether it
  changed, and only a changed rate is assigned to the optimizer.
- **`TrainingPlot`** (`training_plot.dfy`, module `Plot`) validates
  `start_from` and the style overrides. From the warm-up epoch
  `start_from` on, it accumulates the values of the metrics logged at the
  warm-up epoch; a metric first logged later is never tracked. After each epoch
  it draws one chart per non-`val_` metric under the overridden global
  style (`rcParams`), then puts the previous style back. Charts are
  recorded as values (`Chart`).
- **`only_one_is_not_none` and `isnumber`** (`utils.dfy`, module `Utils`)
  are the shared validators. `python.dfy` (module `Python`) holds the
  small part of Python's object model the callbacks rely on: argument
  values, exception classes, numeric `isinstance`, dict key equality and
  `dict.get`.

State that the source mutates is a Dafny class with `modifies` clauses:
`ModelSaver`, `CustomLearningRateScheduler` with its `Optimizer`,
`TrainingPlot` and the global style map `RcParams`. Each epoch-end method is
proved equal to a pure specification function (`EpochEnd`, `Schedule`,
`Track` with `Render`). The lemmas about those functions carry the
properties: which files are written and in what order, how the best value
evolves over a run, what the tracked series hold after a run, and when
drawing fails.

Some behaviour of the code is easy to misread, and the model follows the
code in each case:

- The plotter saves the style before drawing and updates it back after the
  chart loop (`_training_plot.py:82-86` and `115-116`). There is no
  `try`/`finally`, so a `KeyError` for a missing `val_` series leaves the
  overrides in force.
- The scheduler raises `TypeError`, not `ValueError`, for a negative rate
  in `epochs_dict`.
- `each_n = 0` passes the constructor. The first later call whose
  monitored metric is present raises `ZeroDivisionError` after the `best`
  save.
- The scheduler's `verbose` flag is stored but never read. The change
  message (`OnEpochBegin`'s `notice`) is printed on every change.
- A monitored metric missing even after the fallback raises `TypeError`
  (`None < best`). By then the monitor has already been switched.

## Model

| member | source | states |
|---|---|---|
| Utils.IsNumber | tf_utils/callbacks/_utils.py:18-19 | a value is a number exactly when it is a bool, an int or a float |
| Utils.OnlyOneIsNotNone | tf_utils/callbacks/_utils.py:4-15 | the scan returns True exactly when at most one argument is not None, including when there are no arguments |
| Utils.CountAtLeastTwo | tf_utils/callbacks/_utils.py:4-15 | the count of non-None arguments reaches two exactly when two distinct positions hold non-None values |
| Saver.ValidateEachN | tf_utils/callbacks/_saver.py:31-41 | `each_n` is accepted exactly when it is None or a whole, non-negative number, and is kept with its value; a non-number raises TypeError and a fractional or negative number raises ValueError |
| Saver.ZeroEachNAccepted | tf_utils/callbacks/_saver.py:31-41 | zero, int or float, passes validation |
| Saver.Save | tf_utils/callbacks/_saver.py:67-72 | one save writes the weights file, followed by the optimizer dump exactly when it is included, both for the same target |
| Saver.Fallback | tf_utils/callbacks/_saver.py:50-62 | a monitor present in the logs is kept; a missing one becomes `val_loss` when that is logged, and `loss` otherwise |
| Saver.FallbackIdempotent | tf_utils/callbacks/_saver.py:50-62 | falling back a second time on the same logs changes nothing |
| Saver.EpochEnd | tf_utils/callbacks/_saver.py:48-92 | one call: the monitor becomes the fallback; the best value never rises and changes exactly on a strict improvement, to the current value; a missing metric raises TypeError and writes nothing; `each_n = 0` raises ZeroDivisionError exactly when the metric is present; no other call raises |
| Saver.EpochEndFiles | tf_utils/callbacks/_saver.py:64-92 | `best` is written exactly on a strict improvement, `<epoch>` exactly when `epoch % each_n == 0`, `last` exactly when enabled and the call does not fail, and each optimizer dump exactly when included |
| Saver.EpochEndOrdered | tf_utils/callbacks/_saver.py:66-92 | within a call the saves come in the order best, periodic, last, every optimizer dump directly follows its weights file, and no file is written twice |
| Saver.PlanOrdered | tf_utils/callbacks/_saver.py:66-92 | the saves due in one call are laid out as best, then periodic, then last, with no file twice |
| Saver.Run | tf_utils/callbacks/_saver.py:48-92 | a run records at most one file list per call, one per call when no call raises, and its best value never rises |
| Saver.DecreasingSavesBestEveryEpoch | tf_utils/callbacks/_saver.py:64-74 | when the monitored metric strictly decreases from a first improving value, no call fails and every call writes `best` |
| Saver.NoBestAtOrAbove | tf_utils/callbacks/_saver.py:66-74 | once the best value is `b`, values at or above `b` never write `best` |
| Saver.NonDecreasingSavesBestOnlyFirst | tf_utils/callbacks/_saver.py:66-74 | when the monitored metric never decreases, only the first call can write `best` |
| Saver.ScenarioFourEpochs | tf_utils/callbacks/_saver.py:48-92 | `val_loss` 0.5, 0.4, 0.6, 0.3 with `each_n = 2` writes `best` at epochs 0, 1, 3, `<epoch>` at 0 and 2, and `last` at every epoch |
| Saver.ModelSaver.Create | tf_utils/callbacks/_saver.py:15-46 | construction fails exactly when `each_n` fails validation, with that error; a new saver starts from an infinite best |
| Saver.ModelSaver.OnEpochEnd | tf_utils/callbacks/_saver.py:48-92 | the new monitor, best value, files and error are exactly those of `EpochEnd` on the old state |
| Scheduler.Schedule | tf_utils/callbacks/_learning_rate_scheduler.py:27-70 | a rate reported unchanged is the old rate; a rule reports a change exactly when `rule(epoch, old)` differs from the old rate, and the new rate is then that result; a multiplier always changes to old times factor; a table changes exactly at its keys, to the key's rate |
| Scheduler.ScheduleAsWritten | tf_utils/callbacks/_learning_rate_scheduler.py:27-33 | the custom closure as written fails with NameError on every call, whatever the rule, and the other closures agree with `Schedule` |
| Scheduler.CustomAsWrittenRaises | tf_utils/callbacks/_learning_rate_scheduler.py:28 | with a rule that halves the rate, the closure as written raises NameError while the intended closure halves the rate |
| Scheduler.ItemError | tf_utils/callbacks/_learning_rate_scheduler.py:52-64 | a table item passes exactly when its key and its value are non-negative numbers; a negative key raises ValueError, and a non-number key or value or a negative value raises TypeError |
| Scheduler.ValidatedKeepsRateNonNegative | tf_utils/callbacks/_learning_rate_scheduler.py:36-70 | a validated multiplier or table never proposes a negative rate from a non-negative one |
| Scheduler.SelectStrategy | tf_utils/callbacks/_learning_rate_scheduler.py:18-72 | LookupError exactly when two or more arguments are given; otherwise the given argument is validated: a rule must be callable; a multiplier must be a positive number; the table is checked as `CheckTable` states; with nothing given, `.items()` fails on None |
| Scheduler.CheckTable | tf_utils/callbacks/_learning_rate_scheduler.py:52-64 | the first item that breaks a rule decides the error; otherwise the table holds exactly the items, all non-negative |
| Scheduler.CustomLearningRateScheduler.Create | tf_utils/callbacks/_learning_rate_scheduler.py:10-74 | construction succeeds or fails exactly as `SelectStrategy` decides, with its error, and a new scheduler holds the strategy it chose |
| Scheduler.CustomLearningRateScheduler.OnEpochBegin | tf_utils/callbacks/_learning_rate_scheduler.py:76-83 | the optimizer's rate becomes the proposed rate exactly when a change is reported, and the printed notice is (old, new) exactly then |
| Scheduler.TableScenario | tf_utils/callbacks/_learning_rate_scheduler.py:66-70 | the table `{5: 0.01, 10: 0.001}` sets 0.01 at epoch 5, keeps the rate at epoch 7 and sets 0.001 at epoch 10 |
| Plot.ValidateStartFrom | tf_utils/callbacks/_training_plot.py:18-34 | `start_from` is accepted exactly when it is a whole, non-negative number, and is kept as that integer; a non-number raises TypeError, a fractional or negative number ValueError |
| Plot.ValidateVisualizationParams | tf_utils/callbacks/_training_plot.py:36-48 | None means no overrides; a non-dict raises TypeError; a dict is accepted exactly when every key is a known style parameter, and then the overrides are exactly its items |
| Plot.TrainingPlot.Create | tf_utils/callbacks/_training_plot.py:13-62 | `start_from` is checked first and its error wins; after it, construction succeeds or fails exactly as `ValidateVisualizationParams` decides, and a new plotter holds exactly the accepted overrides, tracks nothing and starts from the validated epoch |
| Plot.RcParams.Update | tf_utils/callbacks/_training_plot.py:86 | updating with known parameters overrides exactly those and keeps the set of parameters |
| Plot.ResetWellFormed | tf_utils/callbacks/_training_plot.py:76-77 | the warm-up loop keeps every tracked name once and the tracked names equal to the series keys |
| Plot.ResetValues | tf_utils/callbacks/_training_plot.py:76-77 | after the warm-up loop every name it visited has an empty series, and every other key keeps its series or its absence |
| Plot.ResetTracked | tf_utils/callbacks/_training_plot.py:76-77 | the warm-up loop over distinct names appends exactly the names not tracked before, in their order |
| Plot.WarmUpSpec | tf_utils/callbacks/_training_plot.py:71-77 | the warm-up sets the validation flag when `val_loss` is logged and never clears it, gives every logged metric an empty series, keeps the others, and appends the new names in log order |
| Plot.TrackSpec | tf_utils/callbacks/_training_plot.py:65-80 | one call keeps names and keys in step; before the warm-up epoch nothing changes; after it every series grows by the logged value or None, with no new name; at it the logged metrics restart from their current values, while a tracked metric the logs lack keeps its series and gets None |
| Plot.ChartNames | tf_utils/callbacks/_training_plot.py:89-91 | a metric gets a chart exactly when it is tracked and does not start with `val_` |
| Plot.ChartNamesDistinct | tf_utils/callbacks/_training_plot.py:89-91 | with distinct tracked names, no metric is charted twice |
| Plot.PngName | tf_utils/callbacks/_training_plot.py:110 | the file name ends in `.png`, and a name without a dot just gets `.png` appended |
| Plot.Render | tf_utils/callbacks/_training_plot.py:89-113 | drawing completes with one chart per name, or raises KeyError naming the metric right after the charts already drawn |
| Plot.RenderFails | tf_utils/callbacks/_training_plot.py:99-102 | drawing fails exactly when validation is tracked and some charted metric has no `val_` series, and the metric it stops at is one of those |
| Plot.RenderCharts | tf_utils/callbacks/_training_plot.py:97-102 | every chart drawn is the chart of the metric at its position: the metric's series over epochs `start_from` to `epoch`, with its `val_` series when validation is tracked |
| Plot.RenderCharacterized | tf_utils/callbacks/_training_plot.py:89-113 | any charts and error that match the metrics in order and stop at a missing `val_` series are exactly what drawing produces |
| Plot.TrainingPlot.ResetSeries | tf_utils/callbacks/_training_plot.py:71-77 | the in-place warm-up loop leaves the plotter in the warm-up state |
| Plot.TrainingPlot.AppendValues | tf_utils/callbacks/_training_plot.py:79-80 | the in-place append loop leaves the plotter in the appended state |
| Plot.TrainingPlot.DrawCharts | tf_utils/callbacks/_training_plot.py:89-113 | the chart loop produces exactly the charts and error of `Render` under the current style |
| Plot.TrainingPlot.OnEpochEnd | tf_utils/callbacks/_training_plot.py:65-116 | the new metrics are those of `Track`; from the warm-up epoch on, the charts are those of `Render` under the old style plus the overrides; the old style is back exactly when drawing completes, and the overrides stay in force after a KeyError |
| Plot.ReplayWellFormed | tf_utils/callbacks/_training_plot.py:65-80 | over any run the tracked names stay distinct and equal to the series keys |
| Plot.ReplayAfterWarmUp | tf_utils/callbacks/_training_plot.py:68-80 | after the warm-up epoch every call only appends |
| Plot.AppendOnlyAfterWarmUp | tf_utils/callbacks/_training_plot.py:79-80 | after the warm-up epoch no name is added, the validation flag stays, and each series grows by exactly its metric's logged values, None where missing |
| Plot.FirstWarmUp | tf_utils/callbacks/_training_plot.py:71-80 | the warm-up epoch of a fresh plotter tracks the logged metrics in log order, each with its current value |
| Plot.ConsecutiveFromWarmUp | tf_utils/callbacks/_training_plot.py:71-102 | calls at consecutive epochs from `start_from` track exactly the warm-up epoch's metrics, and each series then has `epoch - start_from + 1` entries, as many as the chart's epoch range |

## Left out

- Files, folders and `sys.argv` are not modelled. Saves and charts are recorded as values, and `TrainingPlot`'s `folder_to_save` check (including its `AttributeError` on a missing folder) is not part of this model.
- Model weights, `pickle`, `save_weights` and the matplotlib drawing calls (`clf`, `plot`, labels, `legend`, `savefig`) are not modelled. A chart records what it plots, and with which style.
- A plot whose series length differs from its epoch range makes matplotlib raise. The model does not raise there. `Plot.ConsecutiveFromWarmUp` shows the lengths agree when epochs run consecutively from `start_from`.
- `warnings.warn` calls are not modelled, only the monitor change they announce.
- Floats are reals: NaN, infinities and rounding are not modelled. `np.inf` is the `Infinity` bound.
- `logs=None` is not modelled. Every epoch-end call receives a mapping. Its iteration order is passed explicitly (`order`), since a Dafny map has none.
- A callable is a Dafny function value. A rule that raises, loops or returns a non-number is not modelled, and neither are callables other than functions.
- The scheduler's table closure reads the user's dict at call time, so a later mutation of that dict would change the schedule. The model copies the table at construction.
- When the caller passes a `visualization_params` dict, the plotter keeps it by reference and reads it on every epoch-end call (`_training_plot.py:48` and `86`), so a later mutation of that dict would change the overrides. The model copies the overrides at construction.
- Constructor defaults (`monitor='val_loss'`, `save_last=True`, `start_from=5`, `verbose=True` and the other keyword defaults) are not modelled. Every `Create` takes each argument explicitly.
- Plot.ValidateVisualizationParams: checks only the keys against the style map, as the source does. Values are not checked, because matplotlib validates them on `rcParams.update`, which is not modelled.
- Plot.PngName: models `with_suffix` for plain metric names. Names containing `/` or empty names, which `pathlib` treats specially, are not modelled.
- Keras calling conventions are not modelled. The model takes epochs in any order; the run lemmas state the orders they need as preconditions.

## Findings

| source | as written | input that shows it | evidently intended | confidence | as-written member | corrected member |
|---|---|---|---|---|---|---|
| tf_utils/callbacks/_learning_rate_scheduler.py:28 | the custom closure calls the rule with `epoch`, a local of the constructor that only the `epochs_dict` loop binds | any callable `scheduler_function`, e.g. one halving the rate, at any epoch: NameError | the rule is called with the closure's own `epoch_num` | high, not executed | Scheduler.ScheduleAsWritten, Scheduler.CustomAsWrittenRaises | Scheduler.Schedule |
