/**
 * Value reconciliation of the multi-range slider: splicing one handle's new
 * value into the sorted values, re-sorting, and binding the declared keys of
 * the `values` prop to the sorted values by rank.
 */
module SliderReconcile {
  import opened Wrappers
  import opened Sorting
  import opened JsObjects
  import opened SliderHandles

  function Min(a: nat, b: nat): nat { if a < b then a else b }

  /**
   * `[...values.slice(0, index), newValue, ...values.slice(index + 1)]`, with
   * JavaScript's clamping of slice bounds past the end.
   */
  function SplicedValues(values: seq<real>, index: nat, newValue: real): (r: seq<real>)
    ensures index < |values| ==> |r| == |values| && r[index] == newValue
    ensures index < |values| ==> forall j :: 0 <= j < |values| && j != index ==> r[j] == values[j]
    ensures index >= |values| ==> r == values + [newValue]
  {
    values[..Min(index, |values|)] + [newValue] + values[Min(index + 1, |values|)..]
  }

  /** `values.slice().sort((left, right) => left - right)`. */
  function NumericSort(values: seq<real>): (r: seq<real>)
    ensures multiset(r) == multiset(values)
    ensures SortedBy(r, Identity)
  {
    SortBy(values, Identity)
  }

  /**
   * `result` is the object `computeSliderValues` builds: exactly the declared
   * keys, in declared order, the i-th bound to the i-th value.
   */
  ghost predicate BindsKeysToRanks(result: ValueObject, keys: seq<Key>, sorted: seq<real>) {
    && result.inherited == []
    && OwnKeys(result) == keys
    && |sorted| >= |keys|
    && forall i :: 0 <= i < |result.own| ==> result.own[i].1 == sorted[i]
  }

  /**
   * `computeSliderValues`: assigns `sortedValues[index]` to the index-th key
   * of `Object.keys(values)` on a fresh object.
   */
  method ComputeSliderValues(props: SliderProps, sortedValues: seq<real>) returns (values: ValueObject)
    requires WellFormed(props)
    requires |sortedValues| >= |OwnKeys(props.values)|
    ensures BindsKeysToRanks(values, OwnKeys(props.values), sortedValues)
  {
    var entries: Entries := [];
    var keys := OwnKeys(props.values);
    for index := 0 to |keys|
      invariant Keys(entries) == keys[..index]
      invariant forall i :: 0 <= i < |entries| ==> entries[i].1 == sortedValues[i]
    {
      var key := keys[index];
      var value := sortedValues[index];
      assert key !in keys[..index] by {
        forall j | 0 <= j < index ensures keys[j] != key {
          assert props.values.own[j].0 != props.values.own[index].0;
        }
      }
      entries := Assign(entries, key, value);
      assert keys[..index + 1] == keys[..index] + [key];
    }
    values := ValueObject(entries, []);
  }

  /**
   * `handleChange`: `onChange` receives the re-sorted values bound to the
   * declared keys, and is called only when it is a function and the sorted
   * values differ from the current ones.
   */
  method HandleChange(props: SliderProps, values: seq<real>) returns (onChange: Option<ValueObject>)
    requires WellFormed(props)
    requires |values| >= |OwnKeys(props.values)|
    ensures onChange.Some? <==> NumericSort(values) != SortedValues(props) && props.hasOnChange
    ensures onChange.Some? ==> BindsKeysToRanks(onChange.value, OwnKeys(props.values), NumericSort(values))
  {
    var sortedHandles := GetSortedHandles(props);
    var oldValues := ValuesOf(sortedHandles);
    var newValues := SortBy(values, Identity);
    if newValues != oldValues && props.hasOnChange {
      var computed := ComputeSliderValues(props, newValues);
      onChange := Some(computed);
    } else {
      onChange := None;
    }
  }

  /**
   * `handleRelease`: `onRelease`, whenever it is a function, receives the
   * re-sorted values bound to the declared keys.
   */
  method HandleRelease(props: SliderProps, values: seq<real>) returns (onRelease: Option<ValueObject>)
    requires WellFormed(props)
    requires |values| >= |OwnKeys(props.values)|
    ensures onRelease.Some? <==> props.hasOnRelease
    ensures onRelease.Some? ==> BindsKeysToRanks(onRelease.value, OwnKeys(props.values), NumericSort(values))
  {
    if props.hasOnRelease {
      var newValues := SortBy(values, Identity);
      var computed := ComputeSliderValues(props, newValues);
      onRelease := Some(computed);
    } else {
      onRelease := None;
    }
  }

  /** The two callbacks `renderHandles` passes to `getHandlerForIndex`. */
  datatype Callback = HandleChangeCallback | HandleReleaseCallback

  /** What a handle's change or release handler reports to the slider's owner. */
  datatype Notification = Silent | Changed(values: ValueObject) | Released(values: ValueObject)

  /**
   * The handler `getHandlerForIndex(index, callback)` returns, applied to
   * `newValue`: the sorted values with the index-th replaced, passed to the
   * callback. `lexicographic` is what the argument-less `sort()` makes of the
   * spliced array; only its being a permutation matters, because both
   * callbacks re-sort numerically.
   */
  method HandlerForIndex(props: SliderProps, index: nat, callback: Option<Callback>, newValue: real,
                         lexicographic: seq<real>) returns (n: Notification)
    requires WellFormed(props)
    requires multiset(lexicographic) == multiset(SplicedValues(SortedValues(props), index, newValue))
    ensures callback.None? ==> n == Silent
    ensures callback == Some(HandleChangeCallback) ==>
              var newValues := NumericSort(SplicedValues(SortedValues(props), index, newValue));
              && (n != Silent <==> newValues != SortedValues(props) && props.hasOnChange)
              && (n != Silent ==> n.Changed? && BindsKeysToRanks(n.values, OwnKeys(props.values), newValues))
    ensures callback == Some(HandleReleaseCallback) ==>
              var newValues := NumericSort(SplicedValues(SortedValues(props), index, newValue));
              && (n != Silent <==> props.hasOnRelease)
              && (n != Silent ==> n.Released? && BindsKeysToRanks(n.values, OwnKeys(props.values), newValues))
  {
    n := Silent;
    if callback.Some? {
      var sortedHandles := GetSortedHandles(props);
      var values := ValuesOf(sortedHandles);
      var newValues := SplicedValues(values, index, newValue);
      assert |lexicographic| == |newValues| by {
        assert |multiset(lexicographic)| == |multiset(newValues)|;
      }
      HandlesMatchOwnKeys(props);
      SortIgnoresInputOrder(lexicographic, newValues);
      if callback.value == HandleChangeCallback {
        var onChange := HandleChange(props, lexicographic);
        if onChange.Some? {
          n := Changed(onChange.value);
        }
      } else {
        var onRelease := HandleRelease(props, lexicographic);
        if onRelease.Some? {
          n := Released(onRelease.value);
        }
      }
    }
  }

  /**
   * Change suppression: reporting any permutation of the current values,
   * e.g. a handle released where it already was, re-sorts to the current
   * sorted values, so `onChange` is not called.
   */
  lemma SameValuesAreSilent(props: SliderProps, values: seq<real>)
    requires multiset(values) == multiset(SortedValues(props))
    ensures NumericSort(values) == SortedValues(props)
  {
    var hs := SortedHandles(props);
    var vs := SortedValues(props);
    forall i, j | 0 <= i < j < |vs| ensures Identity(vs[i]) <= Identity(vs[j]) {
      assert ValueOf(hs[i]) <= ValueOf(hs[j]);
    }
    SortedIsUnique(NumericSort(values), vs);
  }

  /** A handler fed the value its handle already has reproduces the current sorted values. */
  lemma UnmovedHandleIsSilent(props: SliderProps, index: nat)
    requires index < |SortedValues(props)|
    ensures NumericSort(SplicedValues(SortedValues(props), index, SortedValues(props)[index])) == SortedValues(props)
  {
    var vs := SortedValues(props);
    assert SplicedValues(vs, index, vs[index]) == vs;
    SameValuesAreSilent(props, vs);
  }

  /** Moving the handle of rank 1 in [12, 36, 72, 90] to 80 re-sorts to [12, 72, 80, 90]. */
  lemma CrossingHandleReranks()
    ensures NumericSort(SplicedValues([12.0, 36.0, 72.0, 90.0], 1, 80.0)) == [12.0, 72.0, 80.0, 90.0]
  {
    var spliced := SplicedValues([12.0, 36.0, 72.0, 90.0], 1, 80.0);
    assert spliced == [12.0, 80.0, 72.0, 90.0];
    var expected := [12.0, 72.0, 80.0, 90.0];
    assert SortedBy(expected, Identity);
    assert multiset(spliced) == multiset(expected);
    SortedIsUnique(NumericSort(spliced), expected);
  }

  /**
   * Rank binding: the i-th declared key reads back the i-th sorted value.
   */
  lemma KeyReadsItsRank(result: ValueObject, keys: seq<Key>, sorted: seq<real>, i: nat)
    requires BindsKeysToRanks(result, keys, sorted)
    requires forall a, b :: 0 <= a < b < |keys| ==> keys[a] != keys[b]
    requires i < |keys|
    ensures Lookup(result, keys[i]) == Some(sorted[i])
  {
    assert Keys(result.own)[i] == keys[i];
    assert DistinctKeys(result.own) by {
      forall a, b | 0 <= a < b < |result.own| ensures result.own[a].0 != result.own[b].0 {
        assert Keys(result.own)[a] == keys[a] && Keys(result.own)[b] == keys[b];
      }
    }
    GetAt(result.own, i);
  }

  /**
   * After the move of `CrossingHandleReranks`, declared keys a, b, c, d map
   * to 12, 72, 80, 90: b and c trade the boundaries they stand for.
   */
  lemma RankBindingExample(result: ValueObject)
    requires BindsKeysToRanks(result, ["a", "b", "c", "d"], [12.0, 72.0, 80.0, 90.0])
    ensures result.own == [("a", 12.0), ("b", 72.0), ("c", 80.0), ("d", 90.0)]
  {
    var own := result.own;
    assert |own| == 4;
    assert own[0] == ("a", 12.0) by { assert Keys(own)[0] == "a"; }
    assert own[1] == ("b", 72.0) by { assert Keys(own)[1] == "b"; }
    assert own[2] == ("c", 80.0) by { assert Keys(own)[2] == "c"; }
    assert own[3] == ("d", 90.0) by { assert Keys(own)[3] == "d"; }
  }

  /** Dragging the handle at 50 of [20, 50, 80] to 85 gives sorted values [20, 80, 85]. */
  lemma DragPastNeighbourExample()
    ensures NumericSort(SplicedValues([20.0, 50.0, 80.0], 1, 85.0)) == [20.0, 80.0, 85.0]
  {
    var spliced := SplicedValues([20.0, 50.0, 80.0], 1, 85.0);
    assert spliced == [20.0, 85.0, 80.0];
    var expected := [20.0, 80.0, 85.0];
    assert SortedBy(expected, Identity);
    assert multiset(spliced) == multiset(expected);
    SortedIsUnique(NumericSort(spliced), expected);
  }
}
