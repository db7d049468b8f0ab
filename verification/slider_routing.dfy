/**
 * Routing a track click or touch to the nearest handle of the multi-range
 * slider. Handle component instances are a type parameter `H`; converting the
 * pointer offset to a value (handle.tsx is not part of this model) is a
 * function argument.
 */
module SliderRouting {
  import opened Wrappers

  /** Index `i` holds a least key, and no earlier index holds one. */
  ghost predicate IsFirstMinimum<T>(values: seq<T>, argFn: T -> real, i: int) {
    && 0 <= i < |values|
    && (forall j :: 0 <= j < |values| ==> argFn(values[i]) <= argFn(values[j]))
    && (forall j :: 0 <= j < i ==> argFn(values[i]) < argFn(values[j]))
  }

  /**
   * `argMin`: a running-minimum scan. Nothing for an empty list; otherwise the
   * element with the least key, the earliest one among equal keys, because
   * only a strictly smaller key replaces the current minimum.
   */
  method ArgMin<T>(values: seq<T>, argFn: T -> real) returns (r: Option<T>)
    ensures r.None? <==> |values| == 0
    ensures r.Some? ==> exists i :: IsFirstMinimum(values, argFn, i) && r.value == values[i]
  {
    if |values| == 0 {
      return None;
    }
    var minValue := values[0];
    var minArg := argFn(minValue);
    ghost var minIndex := 0;
    for index := 1 to |values|
      invariant 0 <= minIndex < index
      invariant minValue == values[minIndex] && minArg == argFn(minValue)
      invariant forall j :: 0 <= j < index ==> minArg <= argFn(values[j])
      invariant forall j :: 0 <= j < minIndex ==> minArg < argFn(values[j])
    {
      var value := values[index];
      var arg := argFn(value);
      if arg < minArg {
        minValue := value;
        minArg := arg;
        minIndex := index;
      }
    }
    assert IsFirstMinimum(values, argFn, minIndex);
    return Some(minValue);
  }

  function Abs(x: real): real { if x < 0.0 then -x else x }

  /**
   * The distance between a handle's current value and the value the pointer
   * offset maps to on that handle's scale.
   */
  function PointerDistance<H>(pointerValue: H -> real, currentValue: H -> real, handle: H): real {
    Abs(pointerValue(handle) - currentValue(handle))
  }

  /**
   * `nearestHandleForValue`: the registered handle whose value is closest to
   * the pointer, the first one among equally close handles; nothing when no
   * handle is registered.
   */
  method NearestHandleForValue<H>(handles: seq<H>, pointerValue: H -> real, currentValue: H -> real)
    returns (found: Option<H>)
    ensures found.None? <==> |handles| == 0
    ensures found.Some? ==>
              exists i ::
                && 0 <= i < |handles| && found.value == handles[i]
                && (forall j :: 0 <= j < |handles| ==>
                      PointerDistance(pointerValue, currentValue, handles[i])
                      <= PointerDistance(pointerValue, currentValue, handles[j]))
                && (forall j :: 0 <= j < i ==>
                      PointerDistance(pointerValue, currentValue, handles[i])
                      < PointerDistance(pointerValue, currentValue, handles[j]))
  {
    found := ArgMin(handles, h => PointerDistance(pointerValue, currentValue, h));
  }
}
