/**
 * The metric plotter (`TrainingPlot`). From the warm-up epoch on, it
 * accumulates every tracked metric's value in memory. After each epoch it
 * redraws one chart per non-validation metric, overlaying the validation
 * series when there is one. The user's style overrides are applied to the
 * global style map for the duration of the call. Charts are recorded as
 * values, not drawn.
 */
module Plot {
  import opened Python
  import Utils

  /** Why construction or an epoch-end call fails. */
  datatype PlotError =
    | StartFromNegative                 // start_from < 0
    | StartFromNotWhole                 // a float start_from with a fractional part
    | StartFromWrongType                // start_from is neither an int nor a float
    | ParamsNotDict                     // visualization_params is not a dict
    | UnknownStyleKey                   // a key of visualization_params is not a style parameter
    | MissingValidationSeries(metric: string)  // `val_<metric>` is not tracked while validation is

  function Raises(e: PlotError): ExceptionClass {
    match e
    case StartFromNegative => ValueError
    case StartFromNotWhole => ValueError
    case StartFromWrongType => TypeError
    case ParamsNotDict => TypeError
    case UnknownStyleKey => ValueError
    case MissingValidationSeries(_) => KeyError
  }

  /**
   * The constructor's check of `start_from`. An int, including a bool, must
   * not be negative. A float must be whole and not negative, and is stored
   * as an int. Anything else is refused.
   */
  function ValidateStartFrom(startFrom: Value): (r: Result<nat, PlotError>)
    ensures r.Success? <==> Utils.IsNumber(startFrom) && IsWhole(AsReal(startFrom)) && AsReal(startFrom) >= 0.0
    ensures r.Success? ==> r.value as real == AsReal(startFrom)
    ensures r.Failure? ==> Raises(r.error) == if Utils.IsNumber(startFrom) then ValueError else TypeError
  {
    match startFrom
    case IntValue(i) => if i < 0 then Failure(StartFromNegative) else Success(i)
    case BoolValue(b) => Success(if b then 1 else 0)
    case FloatValue(f) =>
      if !IsWhole(f) then Failure(StartFromNotWhole)
      else if f < 0.0 then Failure(StartFromNegative)
      else Success(f.Floor)
    case _ => Failure(StartFromWrongType)
  }

  /** A dict key that names one of the known style parameters. */
  predicate KnownKey(key: Value, known: set<string>) {
    key.StrValue? && key.s in known
  }

  /**
   * What the check of `visualization_params` decides: `None` stands for no
   * overrides, a non-dict raises TypeError, and a dict is accepted exactly
   * when every key is a known style parameter, its items then being exactly
   * the overrides.
   */
  ghost predicate OverridesChecked(params: Value, known: set<string>, r: Result<map<string, Value>, PlotError>) {
    && (params.NoneValue? ==> r == Success(map[]))
    && (!params.NoneValue? && !params.DictValue? ==> r == Failure(ParamsNotDict))
    && (r.Success? ==> r.value.Keys <= known)
    && (params.DictValue? ==>
      && (r.Success? <==> forall i :: 0 <= i < |params.items| ==> KnownKey(params.items[i].0, known))
      && (r.Failure? ==> r.error == UnknownStyleKey))
    && (params.DictValue? && r.Success? ==>
      && (forall i :: 0 <= i < |params.items| ==>
            params.items[i].0.s in r.value && r.value[params.items[i].0.s] == params.items[i].1)
      && (forall k :: k in r.value ==> exists i :: 0 <= i < |params.items| && params.items[i].0 == StrValue(k)))
  }

  /**
   * The constructor's check of `visualization_params`. The keys are checked
   * in order, and the first unknown one fails.
   */
  method ValidateVisualizationParams(params: Value, known: set<string>) returns (r: Result<map<string, Value>, PlotError>)
    requires params.DictValue? ==> DistinctKeys(params.items)
    ensures OverridesChecked(params, known, r)
  {
    if params.NoneValue? {
      return Success(map[]);
    }
    if !params.DictValue? {
      return Failure(ParamsNotDict);
    }
    var items := params.items;
    var styles: map<string, Value> := map[];
    for i := 0 to |items|
      invariant forall j :: 0 <= j < i ==> KnownKey(items[j].0, known)
      invariant forall j :: 0 <= j < i ==> items[j].0.s in styles && styles[items[j].0.s] == items[j].1
      invariant forall k :: k in styles ==> k in known && exists j :: 0 <= j < i && items[j].0 == StrValue(k)
    {
      var (key, value) := items[i];
      if !KnownKey(key, known) {
        return Failure(UnknownStyleKey);
      }
      forall j | 0 <= j < i ensures items[j].0.s != key.s {
        assert !SameKey(items[j].0, items[i].0);
      }
      styles := styles[key.s := value];
    }
    return Success(styles);
  }

  /** The global style map (`rcParams`): its set of parameters is fixed, only their values change. */
  class RcParams {
    const known: set<string>
    var params: map<string, Value>

    ghost predicate Valid()
      reads this
    {
      params.Keys == known
    }

    constructor (params: map<string, Value>)
      ensures Valid() && this.params == params
    {
      this.known := params.Keys;
      this.params := params;
    }

    /** `rcParams.update(other)` with parameters it knows. */
    method Update(other: map<string, Value>)
      requires Valid()
      requires other.Keys <= known
      modifies this
      ensures Valid()
      ensures params == old(params) + other
    {
      params := params + other;
    }
  }

  /** `k.startswith('val_')`: the validation counterpart of another metric. */
  predicate IsValidationName(k: string) {
    |k| >= 4 && k[..4] == "val_"
  }

  /** The metrics the plotter keeps: the validation flag, the tracked names in insertion order, and their series. */
  datatype Metrics = Metrics(hasValidation: bool, tracked: seq<string>, values: map<string, seq<Option<real>>>)

  /** The tracked names are exactly the keys of the series map, each once. */
  ghost predicate WellFormed(m: Metrics) {
    Distinct(m.tracked) && forall k :: k in m.values <==> k in m.tracked
  }

  /** A fresh plotter tracks nothing. */
  function Empty(): (m: Metrics)
    ensures WellFormed(m)
  {
    Metrics(false, [], map[])
  }

  /** The iteration order of a metrics mapping: each of its keys exactly once. */
  ghost predicate IsKeyOrder(order: seq<string>, logs: map<string, real>) {
    Distinct(order) && forall k :: k in order <==> k in logs
  }

  /** The names of `names` that are not already in `existing`, in their order. */
  function NewNames(names: seq<string>, existing: seq<string>): (r: seq<string>)
    ensures forall k :: k in r <==> k in names && k !in existing
  {
    if names == [] then []
    else
      var init := names[..|names| - 1];
      var last := names[|names| - 1];
      assert names == init + [last];
      NewNames(init, existing) + (if last in existing then [] else [last])
  }

  /** Filtering names that occur once keeps them occurring once. */
  lemma {:induction false} NewNamesDistinct(names: seq<string>, existing: seq<string>)
    requires Distinct(names)
    ensures Distinct(NewNames(names, existing))
  {
    if names != [] {
      var init := names[..|names| - 1];
      var last := names[|names| - 1];
      assert names == init + [last];
      NewNamesDistinct(init, existing);
      assert last !in init by {
        forall j | 0 <= j < |init| ensures init[j] != last {
          assert init[j] == names[j];
        }
      }
    }
  }

  /** When none of `names` exists yet, all of them are new, in the same order. */
  lemma {:induction false} NewNamesAllNew(names: seq<string>, existing: seq<string>)
    requires forall k :: k in names ==> k !in existing
    ensures NewNames(names, existing) == names
  {
    if names != [] {
      var init := names[..|names| - 1];
      assert names == init + [names[|names| - 1]];
      NewNamesAllNew(init, existing);
    }
  }

  /** Two sequences without repetitions and without common elements concatenate to one without repetitions. */
  lemma DistinctConcat(a: seq<string>, b: seq<string>)
    requires Distinct(a) && Distinct(b)
    requires forall k :: k in b ==> k !in a
    ensures Distinct(a + b)
  {
    var c := a + b;
    forall i, j | 0 <= i < j < |c| ensures c[i] != c[j] {
      if i < |a| && j >= |a| {
        assert c[j] == b[j - |a|] && c[j] in b;
      } else if i >= |a| {
        assert c[i] == b[i - |a|] && c[j] == b[j - |a|];
      }
    }
  }

  /** One step of the warm-up loop: a name not seen before joins the tracked names, and its series is emptied. */
  function ResetOne(m: Metrics, name: string): Metrics {
    m.(tracked := if name in m.values then m.tracked else m.tracked + [name], values := m.values[name := []])
  }

  /** The warm-up loop over `names`, in order. */
  function Reset(m: Metrics, names: seq<string>): Metrics
    decreases |names|
  {
    if names == [] then m else ResetOne(Reset(m, names[..|names| - 1]), names[|names| - 1])
  }

  /** The warm-up loop keeps every tracked name once and in step with the series keys. */
  lemma {:induction false} ResetWellFormed(m: Metrics, names: seq<string>)
    requires WellFormed(m)
    ensures WellFormed(Reset(m, names))
    ensures Reset(m, names).hasValidation == m.hasValidation
    decreases |names|
  {
    if names != [] {
      var r := Reset(m, names[..|names| - 1]);
      var name := names[|names| - 1];
      ResetWellFormed(m, names[..|names| - 1]);
      if name !in r.values {
        DistinctConcat(r.tracked, [name]);
      }
    }
  }

  /** After the warm-up loop a name of `names` has an empty series, and any other keeps its series or its absence. */
  lemma {:induction false} ResetValues(m: Metrics, names: seq<string>, k: string)
    ensures k in names ==> k in Reset(m, names).values && Reset(m, names).values[k] == []
    ensures k !in names ==> (k in Reset(m, names).values <==> k in m.values)
    ensures k !in names && k in m.values ==> Reset(m, names).values[k] == m.values[k]
    decreases |names|
  {
    if names != [] {
      var init := names[..|names| - 1];
      assert names == init + [names[|names| - 1]];
      ResetValues(m, init, k);
    }
  }

  /** The warm-up loop over distinct names appends exactly the new ones to the tracked names, in their order. */
  lemma {:induction false} ResetTracked(m: Metrics, names: seq<string>)
    requires WellFormed(m) && Distinct(names)
    ensures Reset(m, names).tracked == m.tracked + NewNames(names, m.tracked)
    decreases |names|
  {
    if names != [] {
      var init := names[..|names| - 1];
      var name := names[|names| - 1];
      assert names == init + [name];
      assert Distinct(init) by {
        forall i, j | 0 <= i < j < |init| ensures init[i] != init[j] {
          assert init[i] == names[i] && init[j] == names[j];
        }
      }
      assert name !in init by {
        forall j | 0 <= j < |init| ensures init[j] != name {
          assert init[j] == names[j];
        }
      }
      ResetTracked(m, init);
      ResetValues(m, init, name);
    }
  }

  /**
   * The warm-up epoch: validation is noted when `val_loss` is present and
   * never unset, then the warm-up loop runs over the logs in their order.
   */
  function WarmUp(m: Metrics, order: seq<string>, logs: map<string, real>): Metrics {
    Reset(m.(hasValidation := m.hasValidation || "val_loss" in logs), order)
  }

  /**
   * Every metric of the logs gets a fresh empty series, which resets a name
   * seen before and appends a new one to the tracked names; the other series
   * are untouched.
   */
  lemma WarmUpSpec(m: Metrics, order: seq<string>, logs: map<string, real>)
    requires WellFormed(m) && IsKeyOrder(order, logs)
    ensures var w := WarmUp(m, order, logs);
      && WellFormed(w)
      && w.hasValidation == (m.hasValidation || "val_loss" in logs)
      && w.values.Keys == m.values.Keys + logs.Keys
      && (forall k :: k in logs ==> w.values[k] == [])
      && (forall k :: k in m.values && k !in logs ==> w.values[k] == m.values[k])
      && w.tracked == m.tracked + NewNames(order, m.tracked)
  {
    var flagged := m.(hasValidation := m.hasValidation || "val_loss" in logs);
    ResetWellFormed(flagged, order);
    ResetTracked(flagged, order);
    var w := Reset(flagged, order);
    forall k ensures (k in w.values <==> k in m.values || k in logs) && (k in logs ==> w.values[k] == [])
                     && (k in m.values && k !in logs ==> w.values[k] == m.values[k]) {
      ResetValues(flagged, order, k);
    }
  }

  /** Every tracked series gets the current value of its metric, or `None` when the logs lack it. */
  function Append(m: Metrics, logs: map<string, real>): (a: Metrics)
    ensures a.tracked == m.tracked && a.hasValidation == m.hasValidation
    ensures a.values.Keys == m.values.Keys
    ensures forall k :: k in m.values ==> a.values[k] == m.values[k] + [Get(logs, k)]
  {
    m.(values := map k | k in m.values :: m.values[k] + [Get(logs, k)])
  }

  /** The bookkeeping of one `on_epoch_end`: nothing before the warm-up epoch, a warm-up at it, and an append from it on. */
  function Track(startFrom: nat, m: Metrics, epoch: int, order: seq<string>, logs: map<string, real>): Metrics {
    if epoch < startFrom then m
    else Append(if epoch == startFrom then WarmUp(m, order, logs) else m, logs)
  }

  /**
   * One `on_epoch_end` keeps the tracked names and the series keys in step.
   * Before the warm-up epoch nothing changes. After it, one value is appended
   * to every tracked series and no name is added. At it, the new metrics
   * join the tracked names in order and every metric of the logs restarts
   * from its current value, while a tracked metric the logs lack keeps its
   * series and gets `None`.
   */
  lemma TrackSpec(startFrom: nat, m: Metrics, epoch: int, order: seq<string>, logs: map<string, real>)
    requires WellFormed(m) && IsKeyOrder(order, logs)
    ensures var t := Track(startFrom, m, epoch, order, logs);
      && WellFormed(t)
      && (epoch < startFrom ==> t == m)
      && (epoch > startFrom ==> t.tracked == m.tracked && t.values.Keys == m.values.Keys)
      && (epoch > startFrom ==> forall k :: k in m.values ==> t.values[k] == m.values[k] + [Get(logs, k)])
      && (epoch == startFrom ==> t.tracked == m.tracked + NewNames(order, m.tracked))
      && (epoch == startFrom ==> t.values.Keys == m.values.Keys + logs.Keys)
      && (epoch == startFrom ==> forall k :: k in logs ==> t.values[k] == [Some(logs[k])])
      && (epoch == startFrom ==> forall k :: k in m.values && k !in logs ==> t.values[k] == m.values[k] + [None])
      && t.hasValidation == (m.hasValidation || (epoch == startFrom && "val_loss" in logs))
  {
    if epoch == startFrom {
      WarmUpSpec(m, order, logs);
    }
  }

  /** `[key for key in tracked if not key.startswith('val_')]`: the metrics that get a chart. */
  function ChartNames(tracked: seq<string>): (names: seq<string>)
    ensures forall k :: k in names <==> k in tracked && !IsValidationName(k)
  {
    if tracked == [] then []
    else (if IsValidationName(tracked[0]) then [] else [tracked[0]]) + ChartNames(tracked[1..])
  }

  /** Distinct tracked names give distinct charted names: every metric gets exactly one chart. */
  lemma {:induction false} ChartNamesDistinct(tracked: seq<string>)
    requires Distinct(tracked)
    ensures Distinct(ChartNames(tracked))
  {
    if tracked != [] {
      var rest := tracked[1..];
      assert Distinct(rest) by {
        forall i, j | 0 <= i < j < |rest| ensures rest[i] != rest[j] {
          assert rest[i] == tracked[i + 1] && rest[j] == tracked[j + 1];
        }
      }
      ChartNamesDistinct(rest);
      assert tracked[0] !in rest by {
        forall i | 0 <= i < |rest| ensures rest[i] != tracked[0] {
          assert rest[i] == tracked[i + 1];
        }
      }
    }
  }

  /** The index of the last '.' of `s`, or -1. */
  function LastDot(s: string): (i: int)
    ensures -1 <= i < |s|
    ensures i >= 0 ==> s[i] == '.'
    ensures forall j :: i < j < |s| ==> s[j] != '.'
  {
    if s == [] then -1
    else if s[|s| - 1] == '.' then |s| - 1
    else LastDot(s[..|s| - 1])
  }

  /**
   * `Path(name).with_suffix('.png')`. A suffix of the name, meaning a last
   * '.' that is neither the first nor the last character, is replaced.
   * Otherwise ".png" is appended.
   */
  function PngName(name: string): (f: string)
    ensures '.' !in name ==> f == name + ".png"
    ensures |f| >= 4 && f[|f| - 4..] == ".png"
  {
    var i := LastDot(name);
    if 0 < i < |name| - 1 then name[..i] + ".png" else name + ".png"
  }

  /**
   * One chart: the metric's series against the epochs from the warm-up to
   * the current one, with its validation series when validation is tracked,
   * drawn under the given style and saved as `<metric>.png`.
   */
  datatype Chart = Chart(
    metric: string, firstEpoch: int, lastEpoch: int,
    series: seq<Option<real>>, validation: Option<seq<Option<real>>>, style: map<string, Value>)
  {
    /** The file the chart is saved to. */
    function File(): string {
      PngName(metric)
    }
  }

  function ChartFor(name: string, m: Metrics, startFrom: nat, epoch: int, style: map<string, Value>): Chart
    requires name in m.values
    requires m.hasValidation ==> "val_" + name in m.values
  {
    Chart(name, startFrom, epoch, m.values[name],
          if m.hasValidation then Some(m.values["val_" + name]) else None, style)
  }

  /** The charts drawn by one call, in order, and the exception that cut the drawing short, if any. */
  datatype Rendering = Rendering(charts: seq<Chart>, error: Option<PlotError>)

  /**
   * Drawing the charts of `names` in order. While validation is tracked, the
   * first metric without a tracked `val_` series raises KeyError, and the
   * charts already saved stay saved.
   */
  function Render(names: seq<string>, m: Metrics, startFrom: nat, epoch: int, style: map<string, Value>): (r: Rendering)
    requires forall k :: k in names ==> k in m.values
    ensures r.error.None? ==> |r.charts| == |names|
    ensures r.error.Some? ==> |r.charts| < |names| && r.error == Some(MissingValidationSeries(names[|r.charts|]))
  {
    if names == [] then Rendering([], None)
    else if m.hasValidation && "val_" + names[0] !in m.values then
      Rendering([], Some(MissingValidationSeries(names[0])))
    else
      var rest := Render(names[1..], m, startFrom, epoch, style);
      Rendering([ChartFor(names[0], m, startFrom, epoch, style)] + rest.charts, rest.error)
  }

  /**
   * Drawing fails exactly when validation is tracked and some metric lacks
   * its `val_` series, and then it stops at such a metric.
   */
  lemma {:induction false} RenderFails(names: seq<string>, m: Metrics, startFrom: nat, epoch: int, style: map<string, Value>)
    requires forall k :: k in names ==> k in m.values
    ensures var r := Render(names, m, startFrom, epoch, style);
      && (r.error.None? <==> !m.hasValidation || forall k :: k in names ==> "val_" + k in m.values)
      && (r.error.Some? ==> m.hasValidation && "val_" + names[|r.charts|] !in m.values)
  {
    if names != [] && !(m.hasValidation && "val_" + names[0] !in m.values) {
      RenderFails(names[1..], m, startFrom, epoch, style);
      assert forall k :: k in names ==> k == names[0] || k in names[1..];
    }
  }

  /** Every chart drawn is the chart of the metric at its position, with its validation series when tracked. */
  lemma {:induction false} RenderCharts(names: seq<string>, m: Metrics, startFrom: nat, epoch: int, style: map<string, Value>, i: nat)
    requires forall k :: k in names ==> k in m.values
    requires i < |Render(names, m, startFrom, epoch, style).charts|
    ensures i < |names| && (m.hasValidation ==> "val_" + names[i] in m.values)
    ensures Render(names, m, startFrom, epoch, style).charts[i] == ChartFor(names[i], m, startFrom, epoch, style)
  {
    if i > 0 {
      RenderCharts(names[1..], m, startFrom, epoch, style, i - 1);
    }
  }

  /**
   * Drawing is characterised by its charts and its error: the charts are
   * those of a prefix of `names`, and either that prefix is all of them or
   * the next metric lacks its `val_` series and raised.
   */
  lemma {:induction false} RenderCharacterized(names: seq<string>, m: Metrics, startFrom: nat, epoch: int, style: map<string, Value>,
                                               charts: seq<Chart>, error: Option<PlotError>)
    requires forall k :: k in names ==> k in m.values
    requires |charts| <= |names|
    requires forall j :: 0 <= j < |charts| ==>
      && (m.hasValidation ==> "val_" + names[j] in m.values)
      && charts[j] == ChartFor(names[j], m, startFrom, epoch, style)
    requires error.None? ==> |charts| == |names|
    requires error.Some? ==>
      && |charts| < |names| && m.hasValidation && "val_" + names[|charts|] !in m.values
      && error == Some(MissingValidationSeries(names[|charts|]))
    ensures Render(names, m, startFrom, epoch, style) == Rendering(charts, error)
  {
    if names != [] && charts != [] {
      RenderCharacterized(names[1..], m, startFrom, epoch, style, charts[1..], error);
      assert charts == [charts[0]] + charts[1..];
    }
  }

  /** The plotter of one training run. */
  class TrainingPlot {
    const startFrom: nat
    const visualizationParams: map<string, Value>
    const rc: RcParams
    var hasValidation: bool
    var tracked: seq<string>
    var metricsValues: map<string, seq<Option<real>>>

    function Snapshot(): Metrics
      reads this
    {
      Metrics(hasValidation, tracked, metricsValues)
    }

    ghost predicate Valid()
      reads this, rc
    {
      WellFormed(Snapshot()) && rc.Valid() && visualizationParams.Keys <= rc.known
    }

    /** A plotter whose arguments have passed validation; it tracks nothing yet. */
    constructor (startFrom: nat, visualizationParams: map<string, Value>, rc: RcParams)
      requires rc.Valid() && visualizationParams.Keys <= rc.known
      ensures Valid() && Snapshot() == Empty()
      ensures this.startFrom == startFrom && this.visualizationParams == visualizationParams && this.rc == rc
    {
      this.startFrom := startFrom;
      this.visualizationParams := visualizationParams;
      this.rc := rc;
      this.hasValidation := false;
      this.tracked := [];
      this.metricsValues := map[];
    }

    /** `TrainingPlot(...)`: `start_from` is checked first, then `visualization_params` against the style map. */
    static method Create(startFrom: Value, visualizationParams: Value, rc: RcParams)
      returns (r: Result<TrainingPlot, PlotError>)
      requires rc.Valid()
      requires visualizationParams.DictValue? ==> DistinctKeys(visualizationParams.items)
      ensures ValidateStartFrom(startFrom).Failure? ==> r == Failure(ValidateStartFrom(startFrom).error)
      ensures ValidateStartFrom(startFrom).Success? ==>
        OverridesChecked(visualizationParams, rc.known,
          if r.Success? then Success(r.value.visualizationParams) else Failure(r.error))
      ensures r.Success? ==>
        && fresh(r.value) && r.value.Valid() && r.value.rc == rc
        && r.value.Snapshot() == Empty()
        && r.value.startFrom == ValidateStartFrom(startFrom).value
    {
      var start := ValidateStartFrom(startFrom);
      if start.Failure? {
        return Failure(start.error);
      }
      var styles := ValidateVisualizationParams(visualizationParams, rc.known);
      if styles.Failure? {
        return Failure(styles.error);
      }
      var plot := new TrainingPlot(start.value, styles.value, rc);
      return Success(plot);
    }

    /**
     * The warm-up loop over the logs: validation is noted, every metric gets
     * an empty series and a metric not seen before joins the tracked names.
     */
    method ResetSeries(order: seq<string>, logs: map<string, real>)
      modifies this
      ensures Snapshot() == WarmUp(old(Snapshot()), order, logs)
    {
      if "val_loss" in logs {
        hasValidation := true;
      }
      ghost var start := Snapshot();
      for i := 0 to |order|
        invariant Snapshot() == Reset(start, order[..i])
      {
        var name := order[i];
        assert order[..i + 1][..i] == order[..i];
        if name !in metricsValues {
          tracked := tracked + [name];
        }
        metricsValues := metricsValues[name := []];
      }
      assert order[..|order|] == order;
    }

    /** The append loop: every tracked series gets the current value of its metric. */
    method AppendValues(logs: map<string, real>)
      requires WellFormed(Snapshot())
      modifies this
      ensures Snapshot() == Append(old(Snapshot()), logs)
    {
      ghost var before := Snapshot();
      for i := 0 to |tracked|
        invariant Snapshot().(values := before.values) == before
        invariant metricsValues.Keys == before.values.Keys
        invariant forall j :: 0 <= j < i ==> metricsValues[tracked[j]] == before.values[tracked[j]] + [Get(logs, tracked[j])]
        invariant forall j :: i <= j < |tracked| ==> metricsValues[tracked[j]] == before.values[tracked[j]]
      {
        var name := tracked[i];
        metricsValues := metricsValues[name := metricsValues[name] + [Get(logs, name)]];
      }
      assert metricsValues == Append(before, logs).values by {
        forall k | k in before.values ensures metricsValues[k] == before.values[k] + [Get(logs, k)] {
          var j :| 0 <= j < |tracked| && tracked[j] == k;
        }
      }
    }

    /**
     * The chart loop under the current style: one chart per tracked metric
     * that is not a `val_` series, stopping at the first KeyError.
     */
    method DrawCharts(epoch: int) returns (charts: seq<Chart>, error: Option<PlotError>)
      requires forall k :: k in ChartNames(tracked) ==> k in metricsValues
      ensures Rendering(charts, error) == Render(ChartNames(tracked), Snapshot(), startFrom, epoch, rc.params)
    {
      charts, error := [], None;
      var names := ChartNames(tracked);
      ghost var m := Snapshot();
      ghost var style := rc.params;
      for i := 0 to |names|
        invariant |charts| == i
        invariant forall j :: 0 <= j < i ==>
          && (m.hasValidation ==> "val_" + names[j] in m.values)
          && charts[j] == ChartFor(names[j], m, startFrom, epoch, style)
      {
        var name := names[i];
        if hasValidation && "val_" + name !in metricsValues {
          error := Some(MissingValidationSeries(name));
          RenderCharacterized(names, m, startFrom, epoch, style, charts, error);
          return;
        }
        var validation := if hasValidation then Some(metricsValues["val_" + name]) else None;
        charts := charts + [Chart(name, startFrom, epoch, metricsValues[name], validation, rc.params)];
      }
      RenderCharacterized(names, m, startFrom, epoch, style, charts, error);
    }

    /**
     * `on_epoch_end`: the bookkeeping of `Track`, then, from the warm-up
     * epoch on, the charts drawn under the user's style overrides. The
     * previous style is put back only when drawing completes. A KeyError
     * leaves the overrides in force.
     */
    method OnEpochEnd(epoch: int, order: seq<string>, logs: map<string, real>)
      returns (charts: seq<Chart>, error: Option<PlotError>)
      requires Valid()
      requires IsKeyOrder(order, logs)
      modifies this, rc
      ensures Valid()
      ensures Snapshot() == Track(startFrom, old(Snapshot()), epoch, order, logs)
      ensures epoch < startFrom ==> charts == [] && error.None? && rc.params == old(rc.params)
      ensures epoch >= startFrom ==>
        Rendering(charts, error) == Render(ChartNames(tracked), Snapshot(), startFrom, epoch, old(rc.params) + visualizationParams)
      ensures error.None? ==> rc.params == old(rc.params)
      ensures error.Some? ==> rc.params == old(rc.params) + visualizationParams
    {
      charts, error := [], None;
      if epoch < startFrom {
        return;
      }
      TrackSpec(startFrom, Snapshot(), epoch, order, logs);
      if epoch == startFrom {
        WarmUpSpec(Snapshot(), order, logs);
        ResetSeries(order, logs);
      }
      AppendValues(logs);
      var saved := rc.params;
      rc.Update(visualizationParams);
      charts, error := DrawCharts(epoch);
      if error.None? {
        rc.Update(saved);
      }
    }
  }

  /** One call of the host training loop: the epoch, the metrics mapping and its iteration order. */
  datatype PlotCall = PlotCall(epoch: int, order: seq<string>, logs: map<string, real>)

  ghost predicate CallsWellFormed(calls: seq<PlotCall>) {
    forall i :: 0 <= i < |calls| ==> IsKeyOrder(calls[i].order, calls[i].logs)
  }

  /** The bookkeeping of successive epoch-end calls. */
  function Replay(startFrom: nat, m: Metrics, calls: seq<PlotCall>): Metrics
    decreases |calls|
  {
    if calls == [] then m
    else Replay(startFrom, Track(startFrom, m, calls[0].epoch, calls[0].order, calls[0].logs), calls[1..])
  }

  /** The values a metric takes over successive calls, `None` where a call's logs lack it. */
  function Column(calls: seq<PlotCall>, k: string): (c: seq<Option<real>>)
    ensures |c| == |calls|
  {
    if calls == [] then [] else [Get(calls[0].logs, k)] + Column(calls[1..], k)
  }

  /** Successive calls whose logs come with their iteration order keep the tracked names and the series keys in step. */
  lemma {:induction false} ReplayWellFormed(startFrom: nat, m: Metrics, calls: seq<PlotCall>)
    requires WellFormed(m) && CallsWellFormed(calls)
    ensures WellFormed(Replay(startFrom, m, calls))
    decreases |calls|
  {
    if calls != [] {
      var c := calls[0];
      assert IsKeyOrder(c.order, c.logs);
      TrackSpec(startFrom, m, c.epoch, c.order, c.logs);
      assert CallsWellFormed(calls[1..]) by {
        assert forall i :: 0 <= i < |calls| - 1 ==> calls[1..][i] == calls[i + 1];
      }
      ReplayWellFormed(startFrom, Track(startFrom, m, c.epoch, c.order, c.logs), calls[1..]);
    }
  }

  /** Appending the values of successive calls, with no warm-up. */
  function AppendAll(m: Metrics, calls: seq<PlotCall>): Metrics
    decreases |calls|
  {
    if calls == [] then m else AppendAll(Append(m, calls[0].logs), calls[1..])
  }

  /** Appending keeps the tracked names, the validation flag and the keys. */
  lemma {:induction false} AppendAllShape(m: Metrics, calls: seq<PlotCall>)
    ensures AppendAll(m, calls).tracked == m.tracked && AppendAll(m, calls).hasValidation == m.hasValidation
    ensures AppendAll(m, calls).values.Keys == m.values.Keys
    decreases |calls|
  {
    if calls != [] {
      AppendAllShape(Append(m, calls[0].logs), calls[1..]);
    }
  }

  /** Appending grows the series of a tracked metric by its column. */
  lemma {:induction false} AppendAllSeries(m: Metrics, calls: seq<PlotCall>, k: string)
    requires k in m.values
    ensures k in AppendAll(m, calls).values
    ensures AppendAll(m, calls).values[k] == m.values[k] + Column(calls, k)
    decreases |calls|
  {
    if calls == [] {
      assert m.values[k] + [] == m.values[k];
    } else {
      var x := Get(calls[0].logs, k);
      AppendAllSeries(Append(m, calls[0].logs), calls[1..], k);
      assert (m.values[k] + [x]) + Column(calls[1..], k) == m.values[k] + ([x] + Column(calls[1..], k));
    }
  }

  /** After the warm-up epoch, every call only appends. */
  lemma {:induction false} ReplayAfterWarmUp(startFrom: nat, m: Metrics, calls: seq<PlotCall>)
    requires forall i :: 0 <= i < |calls| ==> calls[i].epoch > startFrom
    ensures Replay(startFrom, m, calls) == AppendAll(m, calls)
    decreases |calls|
  {
    if calls != [] {
      assert forall i :: 0 <= i < |calls| - 1 ==> calls[1..][i] == calls[i + 1];
      ReplayAfterWarmUp(startFrom, Append(m, calls[0].logs), calls[1..]);
    }
  }

  /** After the warm-up epoch, calls only append: one value per call to every tracked series, and no new name. */
  lemma AppendOnlyAfterWarmUp(startFrom: nat, m: Metrics, calls: seq<PlotCall>)
    requires forall i :: 0 <= i < |calls| ==> calls[i].epoch > startFrom
    ensures var t := Replay(startFrom, m, calls);
      && t.tracked == m.tracked && t.hasValidation == m.hasValidation
      && t.values.Keys == m.values.Keys
      && forall k :: k in m.values ==> t.values[k] == m.values[k] + Column(calls, k)
  {
    ReplayAfterWarmUp(startFrom, m, calls);
    AppendAllShape(m, calls);
    forall k | k in m.values ensures AppendAll(m, calls).values[k] == m.values[k] + Column(calls, k) {
      AppendAllSeries(m, calls, k);
    }
  }

  /** The warm-up epoch on a fresh plotter tracks the logs' metrics in their order, each with its current value. */
  lemma FirstWarmUp(startFrom: nat, c: PlotCall)
    requires IsKeyOrder(c.order, c.logs) && c.epoch == startFrom
    ensures var m1 := Track(startFrom, Empty(), c.epoch, c.order, c.logs);
      && m1.tracked == c.order
      && m1.hasValidation == ("val_loss" in c.logs)
      && m1.values.Keys == c.logs.Keys
      && forall k :: k in c.logs ==> m1.values[k] == [Some(c.logs[k])]
  {
    var m1 := Track(startFrom, Empty(), c.epoch, c.order, c.logs);
    assert m1.tracked == c.order by {
      TrackSpec(startFrom, Empty(), c.epoch, c.order, c.logs);
      NewNamesAllNew(c.order, []);
      assert [] + c.order == c.order;
    }
    assert m1.hasValidation == ("val_loss" in c.logs) && m1.values.Keys == c.logs.Keys
        && forall k :: k in c.logs ==> m1.values[k] == [Some(c.logs[k])] by {
      TrackSpec(startFrom, Empty(), c.epoch, c.order, c.logs);
    }
  }

  /** From the warm-up epoch on, a fresh plotter holds the warm-up state followed by appends only. */
  lemma ReplayFromWarmUp(startFrom: nat, calls: seq<PlotCall>)
    requires |calls| > 0
    requires forall i :: 1 <= i < |calls| ==> calls[i].epoch > startFrom
    ensures var c := calls[0];
      Replay(startFrom, Empty(), calls) == AppendAll(Track(startFrom, Empty(), c.epoch, c.order, c.logs), calls[1..])
  {
    var rest := calls[1..];
    var c := calls[0];
    assert forall i :: 0 <= i < |rest| ==> rest[i].epoch > startFrom by {
      assert forall i :: 0 <= i < |rest| ==> rest[i] == calls[i + 1];
    }
    ReplayAfterWarmUp(startFrom, Track(startFrom, Empty(), c.epoch, c.order, c.logs), rest);
  }

  /**
   * Calls at consecutive epochs from the warm-up epoch on a fresh plotter
   * track exactly the metrics of the warm-up epoch's logs, in their order.
   * Metrics that first appear later are never tracked. Each series holds one
   * value per call, so after the call at epoch `e` it has `e - start_from + 1`
   * entries, as many as the chart's epoch range.
   */
  lemma ConsecutiveFromWarmUp(startFrom: nat, calls: seq<PlotCall>)
    requires |calls| > 0 && IsKeyOrder(calls[0].order, calls[0].logs)
    requires forall i :: 0 <= i < |calls| ==> calls[i].epoch == startFrom + i
    ensures var t := Replay(startFrom, Empty(), calls);
      && t.tracked == calls[0].order
      && t.values.Keys == calls[0].logs.Keys
      && t.hasValidation == ("val_loss" in calls[0].logs)
      && forall k :: k in t.values ==>
           t.values[k] == Column(calls, k) && |t.values[k]| == calls[|calls| - 1].epoch - startFrom + 1
  {
    var c := calls[0];
    var m1 := Track(startFrom, Empty(), c.epoch, c.order, c.logs);
    FirstWarmUp(startFrom, c);
    ReplayFromWarmUp(startFrom, calls);
    AppendAllShape(m1, calls[1..]);
    forall k | k in m1.values ensures AppendAll(m1, calls[1..]).values[k] == Column(calls, k) {
      AppendAllSeries(m1, calls[1..], k);
    }
  }
}
