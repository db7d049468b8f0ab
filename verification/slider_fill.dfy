/**
 * Fill segments of the multi-range slider: the track between each pair of
 * adjacent handles, including boundary handles at `min` and `max`.
 */
module SliderFill {
  import opened Wrappers
  import opened Intents
  import opened Sorting
  import opened JsObjects
  import opened SliderHandles

  /** `list.filter(x => x != null)[0]`: the first present entry, if any. */
  function FirstPresent<T(==)>(priorities: seq<Option<T>>): (r: Option<T>)
    ensures r.None? <==> forall i :: 0 <= i < |priorities| ==> priorities[i].None?
    ensures r.Some? ==> exists i :: 0 <= i < |priorities| && priorities[i] == r
                                    && forall j :: 0 <= j < i ==> priorities[j].None?
  {
    if priorities == [] then None
    else if priorities[0].Some? then priorities[0]
    else
      var r := FirstPresent(priorities[1..]);
      assert r.Some? ==> exists i :: 0 < i < |priorities| && priorities[i] == r
                                     && forall j :: 0 <= j < i ==> priorities[j].None? by {
        if r.Some? {
          var i :| 0 <= i < |priorities[1..]| && priorities[1..][i] == r
                   && forall j :: 0 <= j < i ==> priorities[1..][j].None?;
          assert priorities[i + 1] == r;
          assert forall j :: 0 <= j < i + 1 ==> priorities[j].None? by {
            forall j | 0 < j < i + 1 ensures priorities[j].None? {
              assert priorities[j] == priorities[1..][j - 1];
            }
          }
        }
      }
      r
  }

  /**
   * The intent of the fill between `left` and `right`: absent only when none
   * of the three candidates is set, and otherwise one of them.
   */
  function ResolveIntent(left: HandleValue, right: HandleValue, defaultTrackIntent: Option<Intent>): (r: Option<Intent>)
    ensures r.None? <==>
      left.extras.trackIntentAfter.None? && right.extras.trackIntentBefore.None? && defaultTrackIntent.None?
    ensures r.Some? ==>
      r == left.extras.trackIntentAfter || r == right.extras.trackIntentBefore || r == defaultTrackIntent
  {
    var priorities := [left.extras.trackIntentAfter, right.extras.trackIntentBefore, defaultTrackIntent];
    var r := FirstPresent(priorities);
    assert r.None? <==> priorities[0].None? && priorities[1].None? && priorities[2].None?;
    r
  }

  /**
   * Intent priority: the left handle's `trackIntentAfter`, then the right
   * handle's `trackIntentBefore`, then the slider's `defaultTrackIntent`.
   */
  lemma ResolveIntentPriority(left: HandleValue, right: HandleValue, defaultTrackIntent: Option<Intent>)
    ensures ResolveIntent(left, right, defaultTrackIntent) ==
      if left.extras.trackIntentAfter.Some? then left.extras.trackIntentAfter
      else if right.extras.trackIntentBefore.Some? then right.extras.trackIntentBefore
      else defaultTrackIntent
  {
    var p := [left.extras.trackIntentAfter, right.extras.trackIntentBefore, defaultTrackIntent];
    assert p[1..] == [right.extras.trackIntentBefore, defaultTrackIntent];
    assert p[1..][1..] == [defaultTrackIntent];
    assert p[1..][1..][1..] == [];
    assert FirstPresent(p[1..][1..]) == defaultTrackIntent;
    if p[0].None? {
      assert FirstPresent(p) == FirstPresent(p[1..]);
      if p[1].None? {
        assert FirstPresent(p[1..]) == FirstPresent(p[1..][1..]);
      }
    }
  }

  /** `Utils.clamp` for a well-ordered range. */
  function Clamp(value: real, lo: real, hi: real): (r: real)
    requires lo <= hi
    ensures lo <= r <= hi
    ensures lo <= value <= hi ==> r == value
    ensures value < lo ==> r == lo
    ensures value > hi ==> r == hi
  {
    var atLeast := if value > lo then value else lo;
    if atLeast < hi then atLeast else hi
  }

  /** The unclamped offset ratio: distance from `min` times the tick size ratio. */
  function ScaledOffset(min: real, value: real, tickSizeRatio: real): real {
    (value - min) * tickSizeRatio
  }

  /** `getOffsetRatio`: the position of `value` on the track as a ratio in [0, 1]. */
  function GetOffsetRatio(min: real, value: real, tickSizeRatio: real): (r: real)
    ensures 0.0 <= r <= 1.0
    ensures 0.0 <= ScaledOffset(min, value, tickSizeRatio) <= 1.0 ==> r == ScaledOffset(min, value, tickSizeRatio)
    ensures ScaledOffset(min, value, tickSizeRatio) < 0.0 ==> r == 0.0
    ensures ScaledOffset(min, value, tickSizeRatio) > 1.0 ==> r == 1.0
  {
    Clamp(ScaledOffset(min, value, tickSizeRatio), 0.0, 1.0)
  }

  lemma ScaledOffsetMonotone(min: real, a: real, b: real, tickSizeRatio: real)
    requires a <= b && tickSizeRatio >= 0.0
    ensures ScaledOffset(min, a, tickSizeRatio) <= ScaledOffset(min, b, tickSizeRatio)
  {
    var d := b - a;
    assert d * tickSizeRatio >= 0.0;
    assert (b - min) * tickSizeRatio == (a - min) * tickSizeRatio + d * tickSizeRatio;
  }

  /** With a non-negative tick size ratio, the offset ratio grows with the value. */
  lemma OffsetRatioMonotone(min: real, a: real, b: real, tickSizeRatio: real)
    requires a <= b && tickSizeRatio >= 0.0
    ensures GetOffsetRatio(min, a, tickSizeRatio) <= GetOffsetRatio(min, b, tickSizeRatio)
  {
    ScaledOffsetMonotone(min, a, b, tickSizeRatio);
  }

  /** Inline placement of a fill; offsets are ratios of the track length (left unformatted). */
  datatype Placement =
    | Horizontal(left: real, right: real, top: real)
    | Vertical(bottom: real, top: real, left: real)

  /** One rendered fill element. */
  datatype Fill = Fill(
    index: nat,
    intent: Option<Intent>,
    startRatio: real,
    endRatio: real,
    startTag: bool,
    endTag: bool,
    emptyTag: bool,
    placement: Placement)

  /**
   * `renderTrackFill`: no element for a zero-width pair; otherwise the two
   * offset ratios, swapped if inverted, the tags and the placement.
   */
  function RenderTrackFill(props: SliderProps, tickSizeRatio: real, index: nat,
                           start: HandleValue, end: HandleValue, intent: Option<Intent>): (r: Option<Fill>)
    ensures r.None? <==> start.value == end.value
    ensures r.Some? ==> r.value.index == index && r.value.intent == intent
    ensures r.Some? ==> 0.0 <= r.value.startRatio <= r.value.endRatio <= 1.0
    ensures r.Some? ==>
              multiset{r.value.startRatio, r.value.endRatio} ==
              multiset{GetOffsetRatio(props.min, start.value, tickSizeRatio), GetOffsetRatio(props.min, end.value, tickSizeRatio)}
    ensures r.Some? ==> (r.value.emptyTag <==> intent == Some(NoIntent))
    ensures r.Some? ==> (r.value.startTag <==> start.extras.handleType == Some(Start))
    ensures r.Some? ==> (r.value.endTag <==> end.extras.handleType == Some(End))
    ensures r.Some? ==>
              r.value.placement ==
              if props.vertical then Vertical(r.value.startRatio, 1.0 - r.value.endRatio, 0.0)
              else Horizontal(r.value.startRatio, 1.0 - r.value.endRatio, 0.0)
  {
    if start.value == end.value then None
    else
      var startOffsetRatio := GetOffsetRatio(props.min, start.value, tickSizeRatio);
      var endOffsetRatio := GetOffsetRatio(props.min, end.value, tickSizeRatio);
      var (lo, hi) := if startOffsetRatio > endOffsetRatio then (endOffsetRatio, startOffsetRatio)
                      else (startOffsetRatio, endOffsetRatio);
      var placement := if props.vertical then Vertical(lo, 1.0 - hi, 0.0) else Horizontal(lo, 1.0 - hi, 0.0);
      Some(Fill(index, intent, lo, hi,
                start.extras.handleType == Some(Start),
                end.extras.handleType == Some(End),
                intent == Some(NoIntent),
                placement))
  }

  /** The sorted handles bracketed by boundary handles at `min` and `max`. */
  function ExpandedHandles(props: SliderProps): seq<HandleValue> {
    [HandleValue(None, props.min, NoExtras)] + SortedHandles(props) + [HandleValue(None, props.max, NoExtras)]
  }

  /**
   * `renderFill`: one track slot per adjacent pair of the expanded handles,
   * i.e. one more than there are handles, each with its resolved intent.
   */
  method RenderFill(props: SliderProps, tickSizeRatio: real) returns (tracks: seq<Option<Fill>>)
    requires WellFormed(props)
    ensures |tracks| == |Handles(props)| + 1
    ensures forall i :: 0 <= i < |tracks| ==>
      var e := ExpandedHandles(props);
      tracks[i] == RenderTrackFill(props, tickSizeRatio, i, e[i], e[i + 1],
                                   ResolveIntent(e[i], e[i + 1], props.defaultTrackIntent))
  {
    var minHandle := HandleValue(None, props.min, NoExtras);
    var maxHandle := HandleValue(None, props.max, NoExtras);
    var sorted := GetSortedHandles(props);
    var expandedHandles := [minHandle] + sorted + [maxHandle];
    tracks := [];
    for index := 0 to |expandedHandles| - 1
      invariant |tracks| == index
      invariant forall i :: 0 <= i < index ==>
        tracks[i] == RenderTrackFill(props, tickSizeRatio, i, expandedHandles[i], expandedHandles[i + 1],
                                     ResolveIntent(expandedHandles[i], expandedHandles[i + 1], props.defaultTrackIntent))
    {
      var left := expandedHandles[index];
      var right := expandedHandles[index + 1];
      var fillIntent := FirstPresent([left.extras.trackIntentAfter, right.extras.trackIntentBefore, props.defaultTrackIntent]);
      tracks := tracks + [RenderTrackFill(props, tickSizeRatio, index, left, right, fillIntent)];
    }
  }

  /** With a present default intent, every fill has an intent. */
  lemma DefaultIntentIsFallback(left: HandleValue, right: HandleValue, defaultTrackIntent: Option<Intent>)
    requires defaultTrackIntent.Some?
    ensures ResolveIntent(left, right, defaultTrackIntent).Some?
  {
    var p := [left.extras.trackIntentAfter, right.extras.trackIntentBefore, defaultTrackIntent];
    assert p[2].Some?;
  }

  /** When every handle lies in [min, max], the expanded handles ascend. */
  lemma ExpandedAscending(props: SliderProps)
    requires props.min <= props.max
    requires forall h :: h in Handles(props) ==> props.min <= h.value <= props.max
    ensures forall i :: 0 <= i < |ExpandedHandles(props)| - 1 ==>
      ExpandedHandles(props)[i].value <= ExpandedHandles(props)[i + 1].value
  {
    var sorted := SortedHandles(props);
    var e := ExpandedHandles(props);
    forall h | h in sorted ensures props.min <= h.value <= props.max {
      assert h in multiset(sorted);
      assert h in multiset(Handles(props));
    }
    forall i | 0 <= i < |e| - 1 ensures e[i].value <= e[i + 1].value {
      if 0 < i < |e| - 2 {
        assert e[i] == sorted[i - 1] && e[i + 1] == sorted[i];
        assert ValueOf(sorted[i - 1]) <= ValueOf(sorted[i]);
      } else if i == 0 && |sorted| > 0 {
        assert e[1] == sorted[0];
      } else if i == |e| - 2 && |sorted| > 0 {
        assert e[i] == sorted[|sorted| - 1];
      }
    }
  }

  /**
   * When every handle lies in [min, max] and the tick size ratio is not
   * negative, the swap never fires: each fill runs from its left handle's
   * offset ratio to its right handle's, so consecutive fills meet, and the
   * first fill starts at ratio 0.
   */
  lemma FillsTileTheTrack(props: SliderProps, tickSizeRatio: real, i: nat)
    requires props.min <= props.max && tickSizeRatio >= 0.0
    requires forall h :: h in Handles(props) ==> props.min <= h.value <= props.max
    requires i < |ExpandedHandles(props)| - 1
    ensures var e := ExpandedHandles(props);
            var f := RenderTrackFill(props, tickSizeRatio, i, e[i], e[i + 1],
                                     ResolveIntent(e[i], e[i + 1], props.defaultTrackIntent));
            f.Some? ==>
              && f.value.startRatio == GetOffsetRatio(props.min, e[i].value, tickSizeRatio)
              && f.value.endRatio == GetOffsetRatio(props.min, e[i + 1].value, tickSizeRatio)
              && (i == 0 ==> f.value.startRatio == 0.0)
  {
    var e := ExpandedHandles(props);
    ExpandedAscending(props);
    assert e[i].value <= e[i + 1].value;
    OffsetRatioMonotone(props.min, e[i].value, e[i + 1].value, tickSizeRatio);
    var startOffsetRatio := GetOffsetRatio(props.min, e[i].value, tickSizeRatio);
    var endOffsetRatio := GetOffsetRatio(props.min, e[i + 1].value, tickSizeRatio);
    assert !(startOffsetRatio > endOffsetRatio);
    if i == 0 {
      assert e[0].value == props.min;
      assert ScaledOffset(props.min, props.min, tickSizeRatio) == 0.0;
      assert startOffsetRatio == 0.0;
    }
  }
}
