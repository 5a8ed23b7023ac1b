/**
 * The checkpoint saver (`ModelSaver`): after every epoch it decides which
 * weight files to write. "best" when the monitored metric beats every
 * earlier value, "<epoch>" every `each_n` epochs, and "last" always when
 * enabled. Each can be paired with a dump of the optimizer state. The files
 * are recorded, not written.
 */
module Saver {
  import opened Python
  import Utils

  /** Why construction or an epoch-end call fails. */
  datatype SaverError =
    | EachNNotNumber   // each_n is neither an int nor a float
    | EachNNotWhole    // each_n has a fractional part
    | EachNNegative    // each_n < 0
    | MetricMissing    // the monitored metric is absent even after the fallback: `None < best`
    | ZeroInterval     // each_n == 0: `epoch % 0`

  function Raises(e: SaverError): ExceptionClass {
    match e
    case EachNNotNumber => TypeError
    case EachNNotWhole => ValueError
    case EachNNegative => ValueError
    case MetricMissing => TypeError
    case ZeroInterval => ZeroDivisionError
  }

  /**
   * The constructor's check of `each_n`: `None` disables periodic saving;
   * otherwise it must be a number with no fractional part that is not
   * negative. Zero passes.
   */
  function ValidateEachN(eachN: Value): (r: Result<Option<nat>, SaverError>)
    ensures r.Success? <==>
      eachN.NoneValue? || (Utils.IsNumber(eachN) && IsWhole(AsReal(eachN)) && AsReal(eachN) >= 0.0)
    ensures r.Success? ==> (r.value.None? <==> eachN.NoneValue?)
    ensures r.Success? && r.value.Some? ==> r.value.value as real == AsReal(eachN)
    ensures r.Failure? ==> Raises(r.error) == if Utils.IsNumber(eachN) then ValueError else TypeError
  {
    if eachN.NoneValue? then Success(None)
    else if !Utils.IsNumber(eachN) then Failure(EachNNotNumber)
    else if !IsWhole(AsReal(eachN)) then Failure(EachNNotWhole)
    else if AsReal(eachN) < 0.0 then Failure(EachNNegative)
    else Success(Some(AsReal(eachN).Floor as nat))
  }

  /** Zero is accepted by the constructor although every later epoch-end call divides by it. */
  lemma ZeroEachNAccepted()
    ensures ValidateEachN(IntValue(0)) == Success(Some(0))
    ensures ValidateEachN(FloatValue(0.0)) == Success(Some(0))
  {
  }

  /** The best value so far: `np.inf` until the first comparison succeeds. */
  datatype Bound = Infinity | Finite(v: real)

  /** `x < bound`. */
  predicate Below(x: real, bound: Bound) {
    bound.Infinity? || x < bound.v
  }

  /** `a <= b` on bounds, with infinity on top. */
  predicate AtMost(a: Bound, b: Bound) {
    b.Infinity? || (a.Finite? && a.v <= b.v)
  }

  /** The base names of the files: `best`, `str(epoch)` and `last`. */
  datatype Target = BestTarget | EpochTarget(epoch: int) | LastTarget

  /** `<target>.h5` holds the model weights, `<target>.opt` the pickled optimizer weights. */
  datatype SavedFile = Weights(target: Target) | OptimizerState(target: Target)

  /** The files one save of `target` writes: the weights, then the optimizer state when it is included. */
  function Save(target: Target, includeOptimizer: bool): (files: seq<SavedFile>)
    ensures |files| == if includeOptimizer then 2 else 1
    ensures forall f :: f in files ==> f.target == target
    ensures files[0] == Weights(target)
    ensures includeOptimizer ==> files[1] == OptimizerState(target)
  {
    if includeOptimizer then [Weights(target), OptimizerState(target)] else [Weights(target)]
  }

  /**
   * The sticky fallback of the monitored metric: kept when the logs carry
   * it, otherwise replaced by `val_loss` when present and by `loss` when not.
   */
  function Fallback(monitor: string, logs: map<string, real>): (m: string)
    ensures m in logs || m == "loss"
    ensures monitor in logs ==> m == monitor
    ensures m != monitor ==> m == "val_loss" || m == "loss"
    // a missing monitor prefers `val_loss`, and falls back to `loss` only without it
    ensures monitor !in logs && "val_loss" in logs ==> m == "val_loss"
    ensures monitor !in logs && "val_loss" !in logs ==> m == "loss"
  {
    if monitor in logs then monitor
    else if "val_loss" in logs then "val_loss"
    else "loss"
  }

  /** Falling back twice on the same logs changes nothing more than falling back once. */
  lemma FallbackIdempotent(monitor: string, logs: map<string, real>)
    ensures Fallback(Fallback(monitor, logs), logs) == Fallback(monitor, logs)
  {
  }

  /** The settings fixed at construction. */
  datatype Config = Config(eachN: Option<nat>, saveLast: bool, includeOptimizer: bool)

  /** What `on_epoch_end` updates: the monitored metric's name and the best value so far. */
  datatype State = State(monitor: string, best: Bound)

  /** The state after one call, the files it wrote in order, and the exception that ended it, if any. */
  datatype Outcome = Outcome(state: State, files: seq<SavedFile>, error: Option<SaverError>)

  /** The order of the three kinds of save within one call. */
  function Rank(t: Target): nat {
    match t
    case BestTarget => 0
    case EpochTarget(_) => 1
    case LastTarget => 2
  }

  /** The files of the saves that are due, in the order best, periodic, last. */
  function Plan(best: bool, periodic: bool, last: bool, epoch: int, includeOptimizer: bool): seq<SavedFile> {
    (if best then Save(BestTarget, includeOptimizer) else [])
    + (if periodic then Save(EpochTarget(epoch), includeOptimizer) else [])
    + (if last then Save(LastTarget, includeOptimizer) else [])
  }

  /** A planned file is one of a due save, and an optimizer dump only when it is included. */
  lemma PlanContains(best: bool, periodic: bool, last: bool, epoch: int, includeOptimizer: bool, f: SavedFile)
    ensures f in Plan(best, periodic, last, epoch, includeOptimizer) <==>
      && (f.Weights? || includeOptimizer)
      && ((best && f.target == BestTarget) || (periodic && f.target == EpochTarget(epoch)) || (last && f.target == LastTarget))
  {
  }

  /**
   * Within a plan, saves come in the order best, periodic, last, each dump
   * follows its weights, and no file appears twice.
   */
  lemma {:induction false} PlanOrdered(best: bool, periodic: bool, last: bool, epoch: int, includeOptimizer: bool)
    ensures var files := Plan(best, periodic, last, epoch, includeOptimizer);
      && (forall i, j :: 0 <= i < j < |files| ==> Rank(files[i].target) <= Rank(files[j].target))
      && (forall i :: 0 <= i < |files| && files[i].OptimizerState? ==> i > 0 && files[i - 1] == Weights(files[i].target))
      && (forall i, j :: 0 <= i < j < |files| ==> files[i] != files[j])
  {
    var b := if best then Save(BestTarget, includeOptimizer) else [];
    var p := if periodic then Save(EpochTarget(epoch), includeOptimizer) else [];
    var l := if last then Save(LastTarget, includeOptimizer) else [];
    var files := Plan(best, periodic, last, epoch, includeOptimizer);
    assert files == b + p + l;
    forall i | 0 <= i < |files|
      ensures Rank(files[i].target) == if i < |b| then 0 else if i < |b| + |p| then 1 else 2
    {
      if i < |b| { assert files[i] == b[i]; }
      else if i < |b| + |p| { assert files[i] == p[i - |b|]; }
      else { assert files[i] == l[i - |b| - |p|]; }
    }
    forall i | 0 <= i < |files| && files[i].OptimizerState?
      ensures i > 0 && files[i - 1] == Weights(files[i].target)
    {
      if i < |b| { assert files[i] == b[i] && files[i - 1] == b[i - 1]; }
      else if i < |b| + |p| { assert files[i] == p[i - |b|] && files[i - 1] == p[i - |b| - 1]; }
      else { assert files[i] == l[i - |b| - |p|] && files[i - 1] == l[i - |b| - |p| - 1]; }
    }
    forall i, j | 0 <= i < j < |files|
      ensures files[i] != files[j]
    {
      if i < |b| && j < |b| { assert files[i] == b[i] && files[j] == b[j]; }
      else if |b| <= i && j < |b| + |p| { assert files[i] == p[i - |b|] && files[j] == p[j - |b|]; }
      else if |b| + |p| <= i { assert files[i] == l[i - |b| - |p|] && files[j] == l[j - |b| - |p|]; }
      else { assert Rank(files[i].target) != Rank(files[j].target); }
    }
  }

  /**
   * One `on_epoch_end(epoch, logs)`. The fallback and the best-value update
   * take effect before a later step can raise, so a failing call keeps them
   * together with the files written up to that point.
   */
  function EpochEnd(cfg: Config, st: State, epoch: int, logs: map<string, real>): (o: Outcome)
    // the monitor falls back, and the new name is the one kept
    ensures o.state.monitor == Fallback(st.monitor, logs)
    // the best value never increases, and only a strict improvement replaces it
    ensures AtMost(o.state.best, st.best)
    ensures o.state.best != st.best <==> o.state.monitor in logs && Below(logs[o.state.monitor], st.best)
    ensures o.state.best != st.best ==> o.state.best == Finite(logs[o.state.monitor])
    // a metric missing after the fallback fails before anything is written or compared
    ensures o.error == Some(MetricMissing) <==> o.state.monitor !in logs
    ensures o.error == Some(MetricMissing) ==> o.files == []
    // a zero interval fails after the best decision
    ensures o.error == Some(ZeroInterval) <==> o.state.monitor in logs && cfg.eachN == Some(0)
    ensures o.error.None? <==> o.state.monitor in logs && cfg.eachN != Some(0)
  {
    var monitor := Fallback(st.monitor, logs);
    if monitor !in logs then
      Outcome(State(monitor, st.best), [], Some(MetricMissing))
    else
      var current := logs[monitor];
      var improved := Below(current, st.best);
      var best := if improved then Finite(current) else st.best;
      if cfg.eachN == Some(0) then
        Outcome(State(monitor, best), Plan(improved, false, false, epoch, cfg.includeOptimizer), Some(ZeroInterval))
      else
        var periodic := cfg.eachN.Some? && epoch % cfg.eachN.value == 0;
        Outcome(State(monitor, best), Plan(improved, periodic, cfg.saveLast, epoch, cfg.includeOptimizer), None)
  }

  /**
   * Which files one call writes: "best" exactly on a strict improvement,
   * "<epoch>" exactly when `epoch % each_n == 0` whatever the metric, "last"
   * on every call that does not fail when enabled, each with its optimizer
   * dump exactly when that is included.
   */
  lemma EpochEndFiles(cfg: Config, st: State, epoch: int, logs: map<string, real>, f: SavedFile)
    ensures var o := EpochEnd(cfg, st, epoch, logs);
      && (Weights(BestTarget) in o.files <==> o.state.monitor in logs && Below(logs[o.state.monitor], st.best))
      && (Weights(EpochTarget(epoch)) in o.files <==> o.error.None? && cfg.eachN.Some? && epoch % cfg.eachN.value == 0)
      && (f.target.EpochTarget? && f in o.files ==> f.target.epoch == epoch)
      && (Weights(LastTarget) in o.files <==> o.error.None? && cfg.saveLast)
      && (OptimizerState(f.target) in o.files <==> Weights(f.target) in o.files && cfg.includeOptimizer)
  {
    var o := EpochEnd(cfg, st, epoch, logs);
    var monitor := Fallback(st.monitor, logs);
    if monitor in logs {
      var improved := Below(logs[monitor], st.best);
      var periodic := cfg.eachN.Some? && cfg.eachN.value != 0 && epoch % cfg.eachN.value == 0;
      var last := cfg.eachN != Some(0) && cfg.saveLast;
      assert o.files == Plan(improved, periodic, last, epoch, cfg.includeOptimizer);
      PlanContains(improved, periodic, last, epoch, cfg.includeOptimizer, Weights(BestTarget));
      PlanContains(improved, periodic, last, epoch, cfg.includeOptimizer, Weights(EpochTarget(epoch)));
      PlanContains(improved, periodic, last, epoch, cfg.includeOptimizer, Weights(LastTarget));
      PlanContains(improved, periodic, last, epoch, cfg.includeOptimizer, f);
      PlanContains(improved, periodic, last, epoch, cfg.includeOptimizer, Weights(f.target));
      PlanContains(improved, periodic, last, epoch, cfg.includeOptimizer, OptimizerState(f.target));
    }
  }

  /**
   * Within one call the saves come in the order best, periodic, last, each
   * dump follows its weights file, and no file is written twice.
   */
  lemma EpochEndOrdered(cfg: Config, st: State, epoch: int, logs: map<string, real>)
    ensures var files := EpochEnd(cfg, st, epoch, logs).files;
      && (forall i, j :: 0 <= i < j < |files| ==> Rank(files[i].target) <= Rank(files[j].target))
      && (forall i :: 0 <= i < |files| && files[i].OptimizerState? ==> i > 0 && files[i - 1] == Weights(files[i].target))
      && (forall i, j :: 0 <= i < j < |files| ==> files[i] != files[j])
  {
    var monitor := Fallback(st.monitor, logs);
    if monitor in logs {
      var improved := Below(logs[monitor], st.best);
      if cfg.eachN == Some(0) {
        PlanOrdered(improved, false, false, epoch, cfg.includeOptimizer);
      } else {
        PlanOrdered(improved, cfg.eachN.Some? && epoch % cfg.eachN.value == 0, cfg.saveLast, epoch, cfg.includeOptimizer);
      }
    }
  }

  /** One call of the host training loop: the epoch index and the metrics mapping. */
  datatype Call = Call(epoch: int, logs: map<string, real>)

  /** A run of calls: the final state, the files of each call, and the exception that stopped the run. */
  datatype Trace = Trace(state: State, files: seq<seq<SavedFile>>, error: Option<SaverError>)

  /**
   * Successive epoch-end calls on one saver. An exception propagates to the
   * training loop and ends the run, so nothing is called after it.
   */
  function Run(cfg: Config, st: State, calls: seq<Call>): (t: Trace)
    ensures |t.files| <= |calls|
    ensures t.error.None? ==> |t.files| == |calls|
    ensures AtMost(t.state.best, st.best)
    decreases |calls|
  {
    if calls == [] then Trace(st, [], None)
    else
      var o := EpochEnd(cfg, st, calls[0].epoch, calls[0].logs);
      if o.error.Some? then Trace(o.state, [o.files], o.error)
      else
        var rest := Run(cfg, o.state, calls[1..]);
        Trace(rest.state, [o.files] + rest.files, rest.error)
  }

  /** The monitored metric's value in every call is present and strictly below the one before. */
  predicate StrictlyDecreasing(monitor: string, calls: seq<Call>) {
    && (forall i :: 0 <= i < |calls| ==> monitor in calls[i].logs)
    && (forall i :: 0 < i < |calls| ==> calls[i].logs[monitor] < calls[i - 1].logs[monitor])
  }

  /** The monitored metric's value in every call is present and at least the one before. */
  predicate NonDecreasing(monitor: string, calls: seq<Call>) {
    && (forall i :: 0 <= i < |calls| ==> monitor in calls[i].logs)
    && (forall i :: 0 < i < |calls| ==> calls[i - 1].logs[monitor] <= calls[i].logs[monitor])
  }

  /** When the monitored metric keeps decreasing, "best" is written at every epoch. */
  lemma {:induction false} DecreasingSavesBestEveryEpoch(cfg: Config, st: State, calls: seq<Call>)
    requires cfg.eachN != Some(0)
    requires StrictlyDecreasing(st.monitor, calls)
    requires |calls| > 0 ==> Below(calls[0].logs[st.monitor], st.best)
    ensures Run(cfg, st, calls).error.None?
    ensures forall i :: 0 <= i < |calls| ==> Weights(BestTarget) in Run(cfg, st, calls).files[i]
    decreases |calls|
  {
    if calls != [] {
      var o := EpochEnd(cfg, st, calls[0].epoch, calls[0].logs);
      assert o.state == State(st.monitor, Finite(calls[0].logs[st.monitor]));
      var rest := calls[1..];
      assert StrictlyDecreasing(st.monitor, rest) by {
        forall i | 0 < i < |rest| ensures rest[i].logs[st.monitor] < rest[i - 1].logs[st.monitor] {
          assert rest[i] == calls[i + 1] && rest[i - 1] == calls[i];
        }
      }
      if |rest| > 0 {
        assert rest[0] == calls[1];
      }
      DecreasingSavesBestEveryEpoch(cfg, o.state, rest);
      var t := Run(cfg, st, calls);
      forall i | 0 <= i < |calls| ensures Weights(BestTarget) in t.files[i] {
        if i > 0 {
          assert t.files[i] == Run(cfg, o.state, rest).files[i - 1];
        }
      }
    }
  }

  /** Once the best value is `b`, no later value at or above `b` writes "best". */
  lemma {:induction false} NoBestAtOrAbove(cfg: Config, st: State, b: real, calls: seq<Call>)
    requires st.best == Finite(b)
    requires forall i :: 0 <= i < |calls| ==> st.monitor in calls[i].logs && b <= calls[i].logs[st.monitor]
    ensures forall i :: 0 <= i < |Run(cfg, st, calls).files| ==> Weights(BestTarget) !in Run(cfg, st, calls).files[i]
    decreases |calls|
  {
    if calls != [] {
      var o := EpochEnd(cfg, st, calls[0].epoch, calls[0].logs);
      assert o.state == st;
      var rest := calls[1..];
      assert forall i :: 0 <= i < |rest| ==> rest[i] == calls[i + 1];
      NoBestAtOrAbove(cfg, st, b, rest);
      var t := Run(cfg, st, calls);
      forall i | 0 <= i < |t.files| ensures Weights(BestTarget) !in t.files[i] {
        if i > 0 {
          assert t.files[i] == Run(cfg, o.state, rest).files[i - 1];
        }
      }
    }
  }

  /** When the monitored metric never decreases, "best" is written at the first epoch at most. */
  lemma NonDecreasingSavesBestOnlyFirst(cfg: Config, st: State, calls: seq<Call>)
    requires NonDecreasing(st.monitor, calls)
    ensures forall i :: 0 < i < |Run(cfg, st, calls).files| ==> Weights(BestTarget) !in Run(cfg, st, calls).files[i]
  {
    if calls != [] {
      var o := EpochEnd(cfg, st, calls[0].epoch, calls[0].logs);
      if o.error.None? {
        var b := calls[0].logs[st.monitor];
        var low := if o.state.best.Finite? && o.state.best.v <= b then o.state.best.v else b;
        var rest := calls[1..];
        assert o.state.best == Finite(low) by {
          assert Below(b, st.best) || AtMost(st.best, Finite(b));
        }
        forall i | 0 <= i < |rest| ensures o.state.monitor in rest[i].logs && low <= rest[i].logs[o.state.monitor] {
          assert rest[i] == calls[i + 1];
          NonDecreasingFromFirst(st.monitor, calls, i + 1);
        }
        NoBestAtOrAbove(cfg, o.state, low, rest);
      }
    }
  }

  /** In a non-decreasing run every value is at least the first. */
  lemma {:induction false} NonDecreasingFromFirst(monitor: string, calls: seq<Call>, k: nat)
    requires NonDecreasing(monitor, calls)
    requires k < |calls|
    ensures calls[0].logs[monitor] <= calls[k].logs[monitor]
  {
    if k > 0 {
      NonDecreasingFromFirst(monitor, calls, k - 1);
    }
  }

  /**
   * A four-epoch scenario: `val_loss` of 0.5, 0.4, 0.6, 0.3 at epochs 0 to
   * 3 with `each_n = 2` and `save_last` writes "best" at epochs 0, 1 and 3,
   * "<epoch>" at 0 and 2, and "last" at every epoch.
   */
  lemma ScenarioFourEpochs()
    ensures
      var calls := [
        Call(0, map["val_loss" := 0.5]), Call(1, map["val_loss" := 0.4]),
        Call(2, map["val_loss" := 0.6]), Call(3, map["val_loss" := 0.3])];
      Run(Config(Some(2), true, false), State("val_loss", Infinity), calls) ==
      Trace(State("val_loss", Finite(0.3)), [
          [Weights(BestTarget), Weights(EpochTarget(0)), Weights(LastTarget)],
          [Weights(BestTarget), Weights(LastTarget)],
          [Weights(EpochTarget(2)), Weights(LastTarget)],
          [Weights(BestTarget), Weights(LastTarget)]],
        None)
  {
    var cfg := Config(Some(2), true, false);
    var s0 := State("val_loss", Infinity);
    var c0, c1, c2, c3 := Call(0, map["val_loss" := 0.5]), Call(1, map["val_loss" := 0.4]),
                          Call(2, map["val_loss" := 0.6]), Call(3, map["val_loss" := 0.3]);
    var o0 := EpochEnd(cfg, s0, 0, c0.logs);
    assert o0 == Outcome(State("val_loss", Finite(0.5)), [Weights(BestTarget), Weights(EpochTarget(0)), Weights(LastTarget)], None);
    var o1 := EpochEnd(cfg, o0.state, 1, c1.logs);
    assert o1 == Outcome(State("val_loss", Finite(0.4)), [Weights(BestTarget), Weights(LastTarget)], None);
    var o2 := EpochEnd(cfg, o1.state, 2, c2.logs);
    assert o2 == Outcome(State("val_loss", Finite(0.4)), [Weights(EpochTarget(2)), Weights(LastTarget)], None);
    var o3 := EpochEnd(cfg, o2.state, 3, c3.logs);
    assert o3 == Outcome(State("val_loss", Finite(0.3)), [Weights(BestTarget), Weights(LastTarget)], None);
    var calls := [c0, c1, c2, c3];
    assert calls[1..] == [c1, c2, c3] && calls[1..][1..] == [c2, c3] && calls[1..][1..][1..] == [c3];
    assert Run(cfg, o3.state, []) == Trace(o3.state, [], None);
  }

  /** The saver of one training run. */
  class ModelSaver {
    var monitor: string
    var best: Bound
    const eachN: Option<nat>
    const saveLast: bool
    const includeOptimizer: bool

    function Settings(): Config {
      Config(eachN, saveLast, includeOptimizer)
    }

    function Current(): State
      reads this
    {
      State(monitor, best)
    }

    /** A saver whose `each_n` has passed validation; nothing is monitored better than infinity yet. */
    constructor (monitor: string, eachN: Option<nat>, saveLast: bool, includeOptimizer: bool)
      ensures Current() == State(monitor, Infinity)
      ensures Settings() == Config(eachN, saveLast, includeOptimizer)
    {
      this.monitor := monitor;
      this.best := Infinity;
      this.eachN := eachN;
      this.saveLast := saveLast;
      this.includeOptimizer := includeOptimizer;
    }

    /** `ModelSaver(...)`: validates `each_n` first, so a bad value raises before any saver exists. */
    static method Create(monitor: string, eachN: Value, saveLast: bool, includeOptimizer: bool)
      returns (r: Result<ModelSaver, SaverError>)
      ensures r.Failure? <==> ValidateEachN(eachN).Failure?
      ensures r.Failure? ==> r.error == ValidateEachN(eachN).error
      ensures r.Success? ==>
        && fresh(r.value)
        && r.value.Current() == State(monitor, Infinity)
        && r.value.Settings() == Config(ValidateEachN(eachN).value, saveLast, includeOptimizer)
    {
      var checked := ValidateEachN(eachN);
      if checked.Failure? {
        return Failure(checked.error);
      }
      var saver := new ModelSaver(monitor, checked.value, saveLast, includeOptimizer);
      return Success(saver);
    }

    /** `on_epoch_end`: updates the monitor and the best value in place and returns the files written. */
    method OnEpochEnd(epoch: int, logs: map<string, real>) returns (files: seq<SavedFile>, error: Option<SaverError>)
      modifies this
      ensures Outcome(Current(), files, error) == EpochEnd(Settings(), old(Current()), epoch, logs)
    {
      files, error := [], None;
      if monitor !in logs {
        if "val_loss" in logs {
          monitor := "val_loss";
        } else {
          monitor := "loss";
        }
      }
      if monitor !in logs {
        error := Some(MetricMissing);
        return;
      }
      var current := logs[monitor];
      ghost var improved := Below(current, best);
      if Below(current, best) {
        files := files + Save(BestTarget, includeOptimizer);
        best := Finite(current);
      }
      assert files == Plan(improved, false, false, epoch, includeOptimizer);
      if eachN.Some? {
        if eachN.value == 0 {
          error := Some(ZeroInterval);
          return;
        }
        if epoch % eachN.value == 0 {
          files := files + Save(EpochTarget(epoch), includeOptimizer);
        }
      }
      ghost var periodic := eachN.Some? && epoch % eachN.value == 0;
      assert files == Plan(improved, periodic, false, epoch, includeOptimizer);
      if saveLast {
        files := files + Save(LastTarget, includeOptimizer);
      }
    }
  }
}
