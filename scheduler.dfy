/**
 * The learning-rate scheduler (`CustomLearningRateScheduler`). At
 * construction exactly one strategy is chosen and validated: a user rule, a
 * multiplier, or a table from epochs to rates. Before every epoch that
 * strategy proposes a rate and says whether it changed. Only a changed rate
 * is written into the optimizer.
 */
module Scheduler {
  import opened Python
  import Utils

  /** A user-supplied rule `(epoch, old_rate) -> new_rate`, known only by what it returns. */
  type Rule = (int, real) -> real

  /** The one strategy chosen at construction. A table maps numeric keys to rates. */
  datatype Strategy =
    | Custom(rule: Rule)
    | Multiplier(factor: real)
    | Table(rates: map<real, real>)

  /** Why construction or a scheduling step fails. */
  datatype SchedulerError =
    | NotExactlyOne           // two or more strategies were supplied
    | NotCallable             // scheduler_function is not callable
    | MultiplierNotNumber     // epoch_multiplier is neither an int nor a float
    | MultiplierNotPositive   // epoch_multiplier <= 0
    | NoItems                 // epochs_dict has no `.items()`, e.g. None when nothing was supplied
    | KeyNotNumber            // a key of epochs_dict is not a number
    | KeyNegative             // a key of epochs_dict is < 0
    | RateNotNumber           // a value of epochs_dict is not a number
    | RateNegative            // a value of epochs_dict is < 0
    | UnboundEpoch            // the custom closure reads `epoch`, which is never bound on that path

  function Raises(e: SchedulerError): ExceptionClass {
    match e
    case NotExactlyOne => LookupError
    case NotCallable => TypeError
    case MultiplierNotNumber => TypeError
    case MultiplierNotPositive => ValueError
    case NoItems => AttributeError
    case KeyNotNumber => TypeError
    case KeyNegative => ValueError
    case RateNotNumber => TypeError
    case RateNegative => TypeError   // the source raises TypeError here, not ValueError
    case UnboundEpoch => NameError
  }

  /**
   * The `scheduler` closure each strategy installs: the proposed rate for
   * `epoch` given the current rate `rate`, and whether it counts as a change.
   */
  function Schedule(s: Strategy, epoch: int, rate: real): (r: (real, bool))
    // whatever the strategy, a rate reported as unchanged is the old rate
    ensures !r.1 ==> r.0 == rate
    // the custom rule reports a change exactly when its result differs
    ensures s.Custom? ==> (r.1 <==> s.rule(epoch, rate) != rate) && (r.1 ==> r.0 == s.rule(epoch, rate))
    // the multiplier always reports a change, to old * factor
    ensures s.Multiplier? ==> r.1 && r.0 == rate * s.factor
    // the table reports a change exactly at its keys, even when the rate is already that value
    ensures s.Table? ==> (r.1 <==> epoch as real in s.rates) && (r.1 ==> r.0 == s.rates[epoch as real])
  {
    match s
    case Custom(rule) =>
      var proposed := rule(epoch, rate);
      if proposed != rate then (proposed, true) else (rate, false)
    case Multiplier(factor) => (rate * factor, true)
    case Table(rates) =>
      if epoch as real in rates then (rates[epoch as real], true) else (rate, false)
  }

  /**
   * The closures as the source writes them: the custom one calls the rule
   * with `epoch`, a variable of the constructor that only the table branch's
   * loop ever binds, so every call of it raises NameError.
   */
  function ScheduleAsWritten(s: Strategy, epoch: int, rate: real): (r: Result<(real, bool), SchedulerError>)
    ensures r.Failure? <==> s.Custom?
    ensures r.Failure? ==> r.error == UnboundEpoch && Raises(r.error) == NameError
    ensures r.Success? ==> r.value == Schedule(s, epoch, rate)
  {
    match s
    case Custom(_) => Failure(UnboundEpoch)
    case _ => Success(Schedule(s, epoch, rate))
  }

  /**
   * The discrepancy: with any rule at all, for instance one that halves the
   * rate, the closure as written raises NameError at every epoch, whereas
   * the intended closure applies the rule.
   */
  lemma CustomAsWrittenRaises(epoch: int, rate: real)
    requires rate != 0.0
    ensures ScheduleAsWritten(Custom((e, lr) => lr / 2.0), epoch, rate) == Failure(UnboundEpoch)
    ensures Schedule(Custom((e, lr) => lr / 2.0), epoch, rate) == (rate / 2.0, true)
  {
  }

  /** The constructor's rules for one table item: a number key >= 0, then a number value >= 0. */
  function ItemError(item: (Value, Value)): (e: Option<SchedulerError>)
    ensures e.None? <==>
      && Utils.IsNumber(item.0) && AsReal(item.0) >= 0.0
      && Utils.IsNumber(item.1) && AsReal(item.1) >= 0.0
    // only a negative key raises ValueError; every other bad item raises TypeError
    ensures e.Some? ==>
      Raises(e.value) == if Utils.IsNumber(item.0) && AsReal(item.0) < 0.0 then ValueError else TypeError
  {
    if !Utils.IsNumber(item.0) then Some(KeyNotNumber)
    else if AsReal(item.0) < 0.0 then Some(KeyNegative)
    else if !Utils.IsNumber(item.1) then Some(RateNotNumber)
    else if AsReal(item.1) < 0.0 then Some(RateNegative)
    else None
  }

  /** A strategy that passed validation: a positive factor, or a table of non-negative keys and rates. */
  predicate Validated(s: Strategy) {
    match s
    case Custom(_) => true
    case Multiplier(factor) => factor > 0.0
    case Table(rates) => forall k :: k in rates ==> k >= 0.0 && rates[k] >= 0.0
  }

  /** A validated multiplier or table never proposes a negative rate from a non-negative one. */
  lemma {:induction false} ValidatedKeepsRateNonNegative(s: Strategy, epoch: int, rate: real)
    requires Validated(s) && !s.Custom?
    requires rate >= 0.0
    ensures Schedule(s, epoch, rate).0 >= 0.0
  {
    if s.Table? && epoch as real in s.rates {
      assert s.rates[epoch as real] >= 0.0;
    }
  }

  /**
   * What the constructor's choice of strategy decides, given the three
   * arguments and its result.
   */
  ghost predicate StrategyChosen(schedulerFunction: Value, epochMultiplier: Value, epochsDict: Value,
                                 r: Result<Strategy, SchedulerError>) {
    && (r == Failure(NotExactlyOne) <==> Utils.CountNotNone([schedulerFunction, epochMultiplier, epochsDict]) >= 2)
    && (r.Success? ==> Validated(r.value))
    // a rule
    && (Utils.CountNotNone([schedulerFunction, epochMultiplier, epochsDict]) == 1 && !schedulerFunction.NoneValue? ==>
        && (r.Success? <==> IsCallable(schedulerFunction))
        && (r.Success? ==> r.value == Custom(schedulerFunction.call))
        && (r.Failure? ==> r.error == NotCallable))
    // a multiplier
    && (Utils.CountNotNone([schedulerFunction, epochMultiplier, epochsDict]) == 1 && !epochMultiplier.NoneValue? ==>
        && (r.Success? <==> Utils.IsNumber(epochMultiplier) && AsReal(epochMultiplier) > 0.0)
        && (r.Success? ==> r.value == Multiplier(AsReal(epochMultiplier)))
        && (r.Failure? ==> Raises(r.error) == if Utils.IsNumber(epochMultiplier) then ValueError else TypeError))
    // nothing, or a table argument without items
    && (schedulerFunction.NoneValue? && epochMultiplier.NoneValue? && !epochsDict.DictValue? ==>
        r == Failure(NoItems))
    // a table
    && (Utils.CountNotNone([schedulerFunction, epochMultiplier, epochsDict]) == 1 && epochsDict.DictValue? ==>
        TableChecked(epochsDict.items, r))
  }

  /**
   * What the check of a table's items decides: the first item that breaks a
   * rule decides the error; otherwise the table holds exactly the items.
   */
  ghost predicate TableChecked(items: seq<(Value, Value)>, r: Result<Strategy, SchedulerError>) {
    && (r.Success? <==> forall i :: 0 <= i < |items| ==> ItemError(items[i]).None?)
    && (r.Failure? ==> exists i :: 0 <= i < |items| && ItemError(items[i]) == Some(r.error)
                               && forall j :: 0 <= j < i ==> ItemError(items[j]).None?)
    && (r.Success? ==> r.value.Table?)
    && (r.Success? ==> forall i :: 0 <= i < |items| ==>
          AsReal(items[i].0) in r.value.rates && r.value.rates[AsReal(items[i].0)] == AsReal(items[i].1))
    && (r.Success? ==> forall k :: k in r.value.rates ==>
          exists i :: 0 <= i < |items| && ItemError(items[i]).None? && AsReal(items[i].0) == k)
  }

  /** The loop over `epochs_dict.items()`: every key, then every value, is checked in order. */
  method CheckTable(items: seq<(Value, Value)>) returns (r: Result<Strategy, SchedulerError>)
    requires DistinctKeys(items)
    ensures TableChecked(items, r)
    ensures r.Success? ==> Validated(r.value)
  {
    var rates: map<real, real> := map[];
    for i := 0 to |items|
      invariant forall j :: 0 <= j < i ==> ItemError(items[j]).None?
      invariant forall j :: 0 <= j < i ==>
        AsReal(items[j].0) in rates && rates[AsReal(items[j].0)] == AsReal(items[j].1)
      invariant forall k :: k in rates ==> exists j :: 0 <= j < i && ItemError(items[j]).None? && AsReal(items[j].0) == k
      invariant forall k :: k in rates ==> k >= 0.0 && rates[k] >= 0.0
    {
      var (key, rate) := items[i];
      if !Utils.IsNumber(key) {
        return Failure(KeyNotNumber);
      }
      if AsReal(key) < 0.0 {
        return Failure(KeyNegative);
      }
      if !Utils.IsNumber(rate) {
        return Failure(RateNotNumber);
      }
      if AsReal(rate) < 0.0 {
        return Failure(RateNegative);
      }
      forall j | 0 <= j < i ensures AsReal(items[j].0) != AsReal(key) {
        assert !SameKey(items[j].0, items[i].0);
      }
      rates := rates[AsReal(key) := AsReal(rate)];
    }
    return Success(Table(rates));
  }

  /**
   * The constructor's choice of strategy: exactly one argument must be
   * given, and the given one must pass its own checks. When none is given,
   * the table branch is reached with `None` and fails on `.items()`.
   */
  method SelectStrategy(schedulerFunction: Value, epochMultiplier: Value, epochsDict: Value)
    returns (r: Result<Strategy, SchedulerError>)
    requires epochsDict.DictValue? ==> DistinctKeys(epochsDict.items)
    ensures StrategyChosen(schedulerFunction, epochMultiplier, epochsDict, r)
  {
    Utils.CountThree(schedulerFunction, epochMultiplier, epochsDict);
    var onlyOne := Utils.OnlyOneIsNotNone([schedulerFunction, epochMultiplier, epochsDict]);
    if !onlyOne {
      return Failure(NotExactlyOne);
    }
    if !schedulerFunction.NoneValue? {
      if !IsCallable(schedulerFunction) {
        return Failure(NotCallable);
      }
      return Success(Custom(schedulerFunction.call));
    } else if !epochMultiplier.NoneValue? {
      if !Utils.IsNumber(epochMultiplier) {
        return Failure(MultiplierNotNumber);
      }
      if AsReal(epochMultiplier) <= 0.0 {
        return Failure(MultiplierNotPositive);
      }
      return Success(Multiplier(AsReal(epochMultiplier)));
    }
    if !epochsDict.DictValue? {
      return Failure(NoItems);
    }
    r := CheckTable(epochsDict.items);
  }

  /** The learning rate the optimizer holds. */
  class Optimizer {
    var learningRate: real

    constructor (learningRate: real)
      ensures this.learningRate == learningRate
    {
      this.learningRate := learningRate;
    }
  }

  /** The scheduler callback, holding the strategy chosen at construction. */
  class CustomLearningRateScheduler {
    const strategy: Strategy
    const verbose: bool

    constructor (strategy: Strategy, verbose: bool)
      ensures this.strategy == strategy && this.verbose == verbose
    {
      this.strategy := strategy;
      this.verbose := verbose;
    }

    /** `CustomLearningRateScheduler(...)`: fails exactly when the choice of strategy fails. */
    static method Create(schedulerFunction: Value, epochMultiplier: Value, epochsDict: Value, verbose: bool)
      returns (r: Result<CustomLearningRateScheduler, SchedulerError>)
      requires epochsDict.DictValue? ==> DistinctKeys(epochsDict.items)
      ensures r.Success? ==> fresh(r.value) && r.value.verbose == verbose
      ensures StrategyChosen(schedulerFunction, epochMultiplier, epochsDict,
        if r.Success? then Success(r.value.strategy) else Failure(r.error))
    {
      var chosen := SelectStrategy(schedulerFunction, epochMultiplier, epochsDict);
      if chosen.Failure? {
        return Failure(chosen.error);
      }
      var scheduler := new CustomLearningRateScheduler(chosen.value, verbose);
      return Success(scheduler);
    }

    /**
     * `on_epoch_begin`: reads the optimizer's rate, asks the strategy, and
     * assigns the proposed rate only when it is reported as changed. The
     * returned notice (old rate, new rate) is the message printed on a change,
     * whatever `verbose` says.
     */
    method OnEpochBegin(epoch: int, optimizer: Optimizer) returns (notice: Option<(real, real)>)
      modifies optimizer
      ensures var (proposed, changed) := Schedule(strategy, epoch, old(optimizer.learningRate));
        && optimizer.learningRate == (if changed then proposed else old(optimizer.learningRate))
        && notice == (if changed then Some((old(optimizer.learningRate), proposed)) else None)
    {
      var learningRate := optimizer.learningRate;
      var (newRate, changed) := Schedule(strategy, epoch, learningRate);
      notice := None;
      if changed {
        notice := Some((learningRate, newRate));
        optimizer.learningRate := newRate;
      }
    }
  }

  /**
   * The table `{5: 0.01, 10: 0.001}`: the rate becomes
   * 0.01 at epoch 5, stays at epoch 7 and becomes 0.001 at epoch 10.
   */
  lemma TableScenario(rate: real)
    ensures var s := Table(map[5.0 := 0.01, 10.0 := 0.001]);
      && Schedule(s, 5, rate) == (0.01, true)
      && Schedule(s, 7, rate) == (rate, false)
      && Schedule(s, 10, rate) == (0.001, true)
  {
  }
}
