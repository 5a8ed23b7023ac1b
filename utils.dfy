/** The argument validators shared by the callbacks (`_utils.py`). */
module Utils {
  import opened Python

  /** `isnumber`: an int or a float instance, where a bool counts as an int. */
  predicate IsNumber(v: Value)
    ensures IsNumber(v) <==> v.BoolValue? || v.IntValue? || v.FloatValue?
  {
    IsInstanceInt(v) || IsInstanceFloat(v)
  }

  /** How many of `values` are not `None`. */
  function CountNotNone(values: seq<Value>): (n: nat)
    ensures n <= |values|
    ensures n == 0 <==> forall i :: 0 <= i < |values| ==> values[i].NoneValue?
  {
    if values == [] then 0
    else CountNotNone(values[..|values| - 1]) + (if values[|values| - 1].NoneValue? then 0 else 1)
  }

  /** The count over the three arguments of a constructor, one argument at a time. */
  lemma CountThree(a: Value, b: Value, c: Value)
    ensures CountNotNone([a, b, c]) ==
      (if a.NoneValue? then 0 else 1) + (if b.NoneValue? then 0 else 1) + (if c.NoneValue? then 0 else 1)
  {
    assert [a, b, c][..2] == [a, b] && [a, b][..1] == [a] && [a][..0] == [];
    assert CountNotNone([a]) == (if a.NoneValue? then 0 else 1);
    assert CountNotNone([a, b]) == CountNotNone([a]) + (if b.NoneValue? then 0 else 1);
  }

  /** Counting a prefix never finds more non-`None` values than counting the whole. */
  lemma {:induction false} CountNotNonePrefix(values: seq<Value>, k: nat)
    requires k <= |values|
    ensures CountNotNone(values[..k]) <= CountNotNone(values)
  {
    if k < |values| {
      var init := values[..|values| - 1];
      assert values[..k] == init[..k];
      CountNotNonePrefix(init, k);
    } else {
      assert values[..k] == values;
    }
  }

  /**
   * The count reaches two exactly when two distinct positions hold
   * something other than `None`: the count is an independent reading of
   * "at least two arguments were given".
   */
  lemma {:induction false} CountAtLeastTwo(values: seq<Value>)
    ensures CountNotNone(values) >= 2 <==>
      exists i, j :: 0 <= i < j < |values| && !values[i].NoneValue? && !values[j].NoneValue?
  {
    if values != [] {
      var init := values[..|values| - 1];
      var last := |values| - 1;
      CountAtLeastTwo(init);
      if CountNotNone(values) >= 2 {
        if CountNotNone(init) >= 2 {
          var i, j :| 0 <= i < j < |init| && !init[i].NoneValue? && !init[j].NoneValue?;
          assert values[i] == init[i] && values[j] == init[j];
        } else {
          assert CountNotNone(init) == 1 && !values[last].NoneValue?;
          var i :| 0 <= i < |init| && !init[i].NoneValue?;
          assert values[i] == init[i];
        }
      }
      if exists i, j :: 0 <= i < j < |values| && !values[i].NoneValue? && !values[j].NoneValue? {
        var i, j :| 0 <= i < j < |values| && !values[i].NoneValue? && !values[j].NoneValue?;
        if j < last {
          assert init[i] == values[i] && init[j] == values[j];
        } else {
          assert init[i] == values[i];
          assert CountNotNone(init) >= 1;
        }
      }
    }
  }

  /**
   * `only_one_is_not_none`: scans the arguments with a `found` flag and
   * returns False at the second argument that is not `None`; when the scan
   * completes (also for no arguments at all) it returns True.
   */
  method OnlyOneIsNotNone(values: seq<Value>) returns (r: bool)
    ensures r <==> CountNotNone(values) <= 1
  {
    var found := false;
    for i := 0 to |values|
      invariant found <==> CountNotNone(values[..i]) == 1
      invariant CountNotNone(values[..i]) <= 1
    {
      assert values[..i + 1][..i] == values[..i];
      if !values[i].NoneValue? {
        if found {
          CountNotNonePrefix(values, i + 1);
          return false;
        }
        found := true;
      }
    }
    assert values[..|values|] == values;
    return true;
  }
}
