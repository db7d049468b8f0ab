/**
 * The documentation example for the multi-range slider
 * (packages/docs-app/src/examples/core-examples/abstractMultiSliderExample.tsx):
 * four intent bounds, which of them the slider shows for the chosen intent and
 * tail options, and how a slider change is merged back into the state.
 */
module MultiSliderExample {
  import opened Wrappers
  import opened Sorting
  import opened JsObjects
  import opened SliderReconcile

  /** The "Intent" option: "danger", "warning" or "both". */
  datatype IntentOption = DangerOption | WarningOption | BothIntentsOption

  /** The "Tail" option: "lower", "upper", "both" or "neither". */
  datatype TailOption = LowerTail | UpperTail | BothTails | NeitherTail

  datatype IntentBounds = IntentBounds(dangerStart: real, warningStart: real, warningEnd: real, dangerEnd: real)

  const DangerStartKey: Key := "dangerStart"
  const WarningStartKey: Key := "warningStart"
  const WarningEndKey: Key := "warningEnd"
  const DangerEndKey: Key := "dangerEnd"

  /** The values the example starts with. */
  const InitialValues := IntentBounds(12.0, 36.0, 72.0, 90.0)

  predicate InBoundOrder(b: IntentBounds) {
    b.dangerStart <= b.warningStart <= b.warningEnd <= b.dangerEnd
  }

  predicate ShowsDanger(intent: IntentOption) { intent == DangerOption || intent == BothIntentsOption }
  predicate ShowsWarning(intent: IntentOption) { intent == WarningOption || intent == BothIntentsOption }
  predicate ShowsLowerTail(tail: TailOption) { tail == LowerTail || tail == BothTails }
  predicate ShowsUpperTail(tail: TailOption) { tail == UpperTail || tail == BothTails }

  /** `getDangerStartHandleValue`: shown for the danger intent on the lower tail. */
  function GetDangerStartHandleValue(intent: IntentOption, tail: TailOption, values: IntentBounds): (r: Option<real>)
    ensures r.Some? <==> ShowsDanger(intent) && ShowsLowerTail(tail)
    ensures r.Some? ==> r.value == values.dangerStart
  {
    if intent == WarningOption || tail == UpperTail || tail == NeitherTail then None
    else Some(values.dangerStart)
  }

  /** `getWarningStartHandleValue`: shown for the warning intent on the lower tail. */
  function GetWarningStartHandleValue(intent: IntentOption, tail: TailOption, values: IntentBounds): (r: Option<real>)
    ensures r.Some? <==> ShowsWarning(intent) && ShowsLowerTail(tail)
    ensures r.Some? ==> r.value == values.warningStart
  {
    if intent == DangerOption || tail == UpperTail || tail == NeitherTail then None
    else Some(values.warningStart)
  }

  /** `getWarningEndHandleValue`: shown for the warning intent on the upper tail. */
  function GetWarningEndHandleValue(intent: IntentOption, tail: TailOption, values: IntentBounds): (r: Option<real>)
    ensures r.Some? <==> ShowsWarning(intent) && ShowsUpperTail(tail)
    ensures r.Some? ==> r.value == values.warningEnd
  {
    if intent == DangerOption || tail == LowerTail || tail == NeitherTail then None
    else Some(values.warningEnd)
  }

  /** `getDangerEndHandleValue`: shown for the danger intent on the upper tail. */
  function GetDangerEndHandleValue(intent: IntentOption, tail: TailOption, values: IntentBounds): (r: Option<real>)
    ensures r.Some? <==> ShowsDanger(intent) && ShowsUpperTail(tail)
    ensures r.Some? ==> r.value == values.dangerEnd
  {
    if intent == WarningOption || tail == LowerTail || tail == NeitherTail then None
    else Some(values.dangerEnd)
  }

  /** `{}` or `{ key: value }`. */
  function Partial(key: Key, value: Option<real>): Entries {
    if value.Some? then [(key, value.value)] else []
  }

  /**
   * `getSliderValues`: the spread of the four partial objects, in bound
   * order; a plain object with distinct keys and no handle beyond the four
   * bounds.
   */
  function GetSliderValues(intent: IntentOption, tail: TailOption, values: IntentBounds): (r: ValueObject)
    ensures r.inherited == []
    ensures DistinctKeys(r.own)
    ensures |r.own| <= 4
  {
    var dangerStart := Partial(DangerStartKey, GetDangerStartHandleValue(intent, tail, values));
    var warningStart := Partial(WarningStartKey, GetWarningStartHandleValue(intent, tail, values));
    var warningEnd := Partial(WarningEndKey, GetWarningEndHandleValue(intent, tail, values));
    var dangerEnd := Partial(DangerEndKey, GetDangerEndHandleValue(intent, tail, values));
    ValueObject(Spread(Spread(Spread(Spread([], dangerStart), warningStart), warningEnd), dangerEnd), [])
  }

  lemma PartialGet(key: Key, value: Option<real>, k: Key)
    ensures DistinctKeys(Partial(key, value))
    ensures Get(Partial(key, value), k) == if k == key then value else None
  {
  }

  /**
   * The slider's values hold each bound exactly when that bound is shown,
   * with the state's value for it, and no other key.
   */
  lemma SliderValuesHoldShownBounds(intent: IntentOption, tail: TailOption, values: IntentBounds, k: Key)
    ensures var own := GetSliderValues(intent, tail, values).own;
      Get(own, k) ==
        if k == DangerStartKey then GetDangerStartHandleValue(intent, tail, values)
        else if k == WarningStartKey then GetWarningStartHandleValue(intent, tail, values)
        else if k == WarningEndKey then GetWarningEndHandleValue(intent, tail, values)
        else if k == DangerEndKey then GetDangerEndHandleValue(intent, tail, values)
        else None
  {
    var ds := GetDangerStartHandleValue(intent, tail, values);
    var ws := GetWarningStartHandleValue(intent, tail, values);
    var we := GetWarningEndHandleValue(intent, tail, values);
    var de := GetDangerEndHandleValue(intent, tail, values);
    var p1, p2, p3, p4 := Partial(DangerStartKey, ds), Partial(WarningStartKey, ws),
                          Partial(WarningEndKey, we), Partial(DangerEndKey, de);
    PartialGet(DangerStartKey, ds, k);
    PartialGet(WarningStartKey, ws, k);
    PartialGet(WarningEndKey, we, k);
    PartialGet(DangerEndKey, de, k);
    var s1 := Spread([], p1);
    var s2 := Spread(s1, p2);
    var s3 := Spread(s2, p3);
    SpreadGet([], p1, k);
    SpreadGet(s1, p2, k);
    SpreadGet(s2, p3, k);
    SpreadGet(s3, p4, k);
  }

  /** With tail "neither" the slider gets no handle at all. */
  lemma NeitherTailShowsNothing(intent: IntentOption, values: IntentBounds)
    ensures GetSliderValues(intent, NeitherTail, values).own == []
  {
  }

  /** With intent "both" and tail "both" the slider gets all four bounds, in bound order. */
  lemma BothShowsAllFour(values: IntentBounds)
    ensures GetSliderValues(BothIntentsOption, BothTails, values).own ==
      [(DangerStartKey, values.dangerStart), (WarningStartKey, values.warningStart),
       (WarningEndKey, values.warningEnd), (DangerEndKey, values.dangerEnd)]
  {
    var p1 := [(DangerStartKey, values.dangerStart)];
    var p2 := [(WarningStartKey, values.warningStart)];
    var p3 := [(WarningEndKey, values.warningEnd)];
    var p4 := [(DangerEndKey, values.dangerEnd)];
    assert Spread([], p1) == p1;
    assert Spread(p1, p2) == p1 + p2;
    assert Spread(p1 + p2, p3) == p1 + p2 + p3;
    assert Spread(p1 + p2 + p3, p4) == p1 + p2 + p3 + p4;
  }

  /** The state's values as an object, in their declared key order. */
  function BoundsEntries(b: IntentBounds): Entries {
    [(DangerStartKey, b.dangerStart), (WarningStartKey, b.warningStart),
     (WarningEndKey, b.warningEnd), (DangerEndKey, b.dangerEnd)]
  }

  function BoundsSeq(b: IntentBounds): seq<real> {
    [b.dangerStart, b.warningStart, b.warningEnd, b.dangerEnd]
  }

  /**
   * The new bounds of `handleChange`: the updated values spread over the
   * state's values, every value of the merged object sorted numerically, and
   * the four smallest assigned to the four bounds in order, which therefore
   * come out ascending. Reading the merged object back key by key yields its
   * entries' values in order, because spreading keeps its keys distinct.
   */
  function ChangedBounds(state: IntentBounds, updated: Entries): (b: IntentBounds)
    ensures InBoundOrder(b)
  {
    var valuesArray := NumericSort(Values(Spread(BoundsEntries(state), updated)));
    assert Identity(valuesArray[0]) <= Identity(valuesArray[1]);
    assert Identity(valuesArray[1]) <= Identity(valuesArray[2]);
    assert Identity(valuesArray[2]) <= Identity(valuesArray[3]);
    IntentBounds(valuesArray[0], valuesArray[1], valuesArray[2], valuesArray[3])
  }

  /**
   * When the update names only the four bound keys, the new bounds are
   * exactly the merged object's values, rearranged: no value is lost.
   */
  lemma ChangedBoundsPermutes(state: IntentBounds, updated: Entries)
    requires forall k :: k in Keys(updated) ==> k in Keys(BoundsEntries(state))
    ensures multiset(BoundsSeq(ChangedBounds(state, updated))) ==
            multiset(Values(Spread(BoundsEntries(state), updated)))
  {
    var valuesMap := Spread(BoundsEntries(state), updated);
    assert Keys(valuesMap) == Keys(BoundsEntries(state));
    assert |valuesMap| == 4;
    var valuesArray := NumericSort(Values(valuesMap));
    assert |valuesArray| == 4;
    assert BoundsSeq(ChangedBounds(state, updated)) == valuesArray;
  }

  /** The initial values are already in ascending bound order. */
  lemma InitialValuesAscending()
    ensures InBoundOrder(InitialValues)
  {
  }

  /**
   * Fed back from the slider, a change names only bound keys: the slider
   * binds the keys of `getSliderValues` by rank, and those are bound keys.
   */
  lemma SliderChangeNamesOnlyBounds(intent: IntentOption, tail: TailOption, values: IntentBounds,
                                    result: ValueObject, sorted: seq<real>)
    requires BindsKeysToRanks(result, OwnKeys(GetSliderValues(intent, tail, values)), sorted)
    ensures forall k :: k in Keys(result.own) ==> k in Keys(BoundsEntries(values))
  {
    forall k | k in Keys(result.own) ensures k in Keys(BoundsEntries(values)) {
      var own := GetSliderValues(intent, tail, values).own;
      assert k in Keys(own);
      assert Get(own, k).Some?;
      SliderValuesHoldShownBounds(intent, tail, values, k);
      var bounds := Keys(BoundsEntries(values));
      assert bounds == [DangerStartKey, WarningStartKey, WarningEndKey, DangerEndKey];
      if k == DangerStartKey {
        assert k == bounds[0];
      } else if k == WarningStartKey {
        assert k == bounds[1];
      } else if k == WarningEndKey {
        assert k == bounds[2];
      } else {
        assert k == bounds[3];
      }
    }
  }

  /** The example component's state. */
  class AbstractMultiSliderExample {
    var intent: IntentOption
    var tail: TailOption
    var values: IntentBounds
    var vertical: bool

    constructor()
      ensures intent == BothIntentsOption && tail == BothTails
      ensures values == InitialValues && !vertical
    {
      intent := BothIntentsOption;
      tail := BothTails;
      values := InitialValues;
      vertical := false;
    }

    /**
     * `handleChange`: merges the slider's values over the state's, sorts
     * them and stores them back as the four bounds, which stay ascending.
     */
    method HandleChange(updatedValues: ValueObject)
      modifies this`values
      ensures values == ChangedBounds(old(values), updatedValues.own)
      ensures InBoundOrder(values)
    {
      var valuesMap := Spread(BoundsEntries(values), updatedValues.own);
      var valuesArray := SortBy(Values(valuesMap), Identity);
      values := IntentBounds(valuesArray[0], valuesArray[1], valuesArray[2], valuesArray[3]);
    }
  }
}
