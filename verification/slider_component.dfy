/**
 * The multi-range slider component's own mutable state: the list of mounted
 * handle instances (`handles`), appended to as handles register their refs
 * and emptied when the number of handles changes. Handle instances are the
 * type parameter `H`.
 */
module SliderComponent {
  import opened Wrappers
  import opened JsObjects
  import opened SliderHandles
  import opened SliderRouting

  class MultiRangeSlider<H> {
    var props: SliderProps
    var handles: seq<H>

    /** The component only ever holds props whose values are a well-formed value object. */
    ghost predicate Valid()
      reads this
    {
      WellFormed(props)
    }

    constructor(props: SliderProps)
      requires WellFormed(props)
      ensures Valid()
      ensures this.props == props && handles == []
    {
      this.props := props;
      handles := [];
    }

    /** `addHandleRef`: a ref callback; `null` (an unmounting handle) is ignored. */
    method AddHandleRef(ref: Option<H>)
      requires Valid()
      modifies this`handles
      ensures Valid()
      ensures handles == if ref.Some? then old(handles) + [ref.value] else old(handles)
    {
      if ref.Some? {
        handles := handles + [ref.value];
      }
    }

    /**
     * `componentWillReceiveProps`: the registered handles are dropped exactly
     * when the incoming props have a different number of handles than the
     * current ones; the incoming props then become the current props, as the
     * framework installs them after the update.
     */
    method ComponentWillReceiveProps(nextProps: SliderProps)
      requires Valid() && WellFormed(nextProps)
      modifies this`handles, this`props
      ensures Valid()
      ensures props == nextProps
      ensures |OwnKeys(nextProps.values)| != |OwnKeys(old(props).values)| ==> handles == []
      ensures |OwnKeys(nextProps.values)| == |OwnKeys(old(props).values)| ==> handles == old(handles)
    {
      var next := GetHandles(nextProps);
      var current := GetHandles(props);
      HandlesMatchOwnKeys(nextProps);
      HandlesMatchOwnKeys(props);
      if |next| != |current| {
        handles := [];
      }
      props := nextProps;
    }

    /**
     * `handleTrackClick`/`handleTrackTouch`: the registered handle nearest to
     * the pointer, which then starts moving; among equally near handles the
     * first registered one; nothing when none is registered.
     */
    method HandleTrackClick(pointerValue: H -> real, currentValue: H -> real) returns (found: Option<H>)
      ensures found.None? <==> handles == []
      ensures found.Some? ==> found.value in handles
      ensures found.Some? ==> forall h :: h in handles ==>
                PointerDistance(pointerValue, currentValue, found.value) <= PointerDistance(pointerValue, currentValue, h)
      ensures found.Some? ==>
                exists i ::
                  && 0 <= i < |handles| && found.value == handles[i]
                  && (forall j :: 0 <= j < i ==>
                        PointerDistance(pointerValue, currentValue, handles[i])
                        < PointerDistance(pointerValue, currentValue, handles[j]))
    {
      found := NearestHandleForValue(handles, pointerValue, currentValue);
    }
  }
}
