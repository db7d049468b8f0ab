/**
 * Handle derivation of the multi-range slider
 * (packages/core/src/components/slider/multiRangeSlider.tsx): one handle per
 * own key of the `values` prop, and the same handles ordered by value.
 */
module SliderHandles {
  import opened Wrappers
  import opened Intents
  import opened Sorting
  import opened JsObjects

  datatype HandleType = Full | Start | End

  /** What `getHandleProps(key)` may add to a handle (`ISliderHandleProps`). */
  datatype HandleProps = HandleProps(
    trackIntentAfter: Option<Intent>,
    trackIntentBefore: Option<Intent>,
    handleType: Option<HandleType>)

  const NoExtras := HandleProps(None, None, None)

  /**
   * A handle as the slider computes it. `key` is absent on the two boundary
   * handles that the fill computation adds at `min` and `max`.
   */
  datatype HandleValue = HandleValue(key: Option<Key>, value: real, extras: HandleProps)

  /**
   * The props the slider logic reads. `getHandleProps` is `None` when the
   * prop is not a function; `hasOnChange`/`hasOnRelease` say whether those
   * callbacks are functions. An omitted `defaultTrackIntent` defaults to the
   * "none" intent (`Some(NoIntent)`), so `None` there stands only for an
   * explicit `null`.
   */
  datatype SliderProps = SliderProps(
    values: ValueObject,
    min: real,
    max: real,
    vertical: bool,
    defaultTrackIntent: Option<Intent>,
    getHandleProps: Option<Key -> HandleProps>,
    hasOnChange: bool,
    hasOnRelease: bool)

  ghost predicate WellFormed(props: SliderProps) {
    DistinctKeys(props.values.own)
  }

  /** The extra handle fields for `key`: none unless `getHandleProps` is a function. */
  function ExtrasFor(getHandleProps: Option<Key -> HandleProps>, key: Key): HandleProps {
    if getHandleProps.Some? then getHandleProps.value(key) else NoExtras
  }

  /** The handles `getHandles` builds, as a value. */
  function Handles(props: SliderProps): seq<HandleValue> {
    var own := props.values.own;
    seq(|own|, i requires 0 <= i < |own| => HandleValue(Some(own[i].0), own[i].1, ExtrasFor(props.getHandleProps, own[i].0)))
  }

  function ValueOf(h: HandleValue): real { h.value }

  function ValuesOf(hs: seq<HandleValue>): seq<real> {
    seq(|hs|, i requires 0 <= i < |hs| => hs[i].value)
  }

  /** The handles of `getSortedHandles`, as a value. */
  function SortedHandles(props: SliderProps): seq<HandleValue> {
    SortBy(Handles(props), ValueOf)
  }

  /** The values of the sorted handles: the slider's current sorted values. */
  function SortedValues(props: SliderProps): seq<real> {
    ValuesOf(SortedHandles(props))
  }

  /**
   * Exactly one handle per own key of `values`, in `Object.keys` order; each
   * carries that key's value and the extras `getHandleProps` gives for it.
   */
  lemma HandlesMatchOwnKeys(props: SliderProps)
    requires WellFormed(props)
    ensures |Handles(props)| == |OwnKeys(props.values)|
    ensures forall i :: 0 <= i < |Handles(props)| ==> Handles(props)[i].key == Some(OwnKeys(props.values)[i])
    ensures forall h :: h in Handles(props) ==>
      h.key.Some? && HasOwnProperty(props.values, h.key.value)
      && Lookup(props.values, h.key.value) == Some(h.value)
      && h.extras == ExtrasFor(props.getHandleProps, h.key.value)
  {
    var own := props.values.own;
    forall h | h in Handles(props)
      ensures h.key.Some? && HasOwnProperty(props.values, h.key.value)
      ensures Lookup(props.values, h.key.value) == Some(h.value)
      ensures h.extras == ExtrasFor(props.getHandleProps, h.key.value)
    {
      var i :| 0 <= i < |Handles(props)| && Handles(props)[i] == h;
      GetAt(own, i);
      assert OwnKeys(props.values)[i] == own[i].0;
    }
  }

  /**
   * `getHandles`: a `for..in` over `values` that skips inherited keys and
   * pushes one handle per own key.
   */
  method GetHandles(props: SliderProps) returns (handles: seq<HandleValue>)
    requires WellFormed(props)
    ensures handles == Handles(props)
  {
    var values := props.values;
    var own := values.own;
    var enumerated := ForInKeys(values);
    ghost var spec := Handles(props);
    handles := [];
    for i := 0 to |enumerated|
      invariant i <= |own| ==> handles == spec[..i]
      invariant i > |own| ==> handles == spec
    {
      var key := enumerated[i];
      assert i >= |own| ==> key in Without(Keys(values.inherited), OwnKeys(values));
      if HasOwnProperty(values, key) {
        assert key == own[i].0;
        GetAt(own, i);
        var value := Lookup(values, key).value;
        var extras := ExtrasFor(props.getHandleProps, key);
        handles := handles + [HandleValue(Some(key), value, extras)];
        assert spec[..i + 1] == spec[..i] + [spec[i]];
      } else {
        assert i >= |own|;
      }
    }
  }

  /**
   * `getSortedHandles`: the handles of `getHandles` ordered by ascending
   * value with a stable sort.
   */
  method GetSortedHandles(props: SliderProps) returns (sorted: seq<HandleValue>)
    requires WellFormed(props)
    ensures sorted == SortedHandles(props)
    ensures multiset(sorted) == multiset(Handles(props))
    ensures forall i, j :: 0 <= i < j < |sorted| ==> sorted[i].value <= sorted[j].value
    ensures forall v :: WithKey(sorted, ValueOf, v) == WithKey(Handles(props), ValueOf, v)
  {
    var handles := GetHandles(props);
    sorted := SortBy(handles, ValueOf);
    forall i, j | 0 <= i < j < |sorted| ensures sorted[i].value <= sorted[j].value {
      assert ValueOf(sorted[i]) <= ValueOf(sorted[j]);
    }
    forall v ensures WithKey(sorted, ValueOf, v) == WithKey(Handles(props), ValueOf, v) {
      SortByIsStable(handles, ValueOf, v);
    }
  }
}
