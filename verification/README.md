# Multi-range slider and table overlay styles, modelled in Dafny

This project models three parts of a browser UI component library.

1. **The multi-range slider** (`MultiRangeSlider`). It has several handles over a numeric range `[min, max]`. Its values arrive as an object from handle keys to numbers.
   - The slider turns that object into a list of handles, using its own keys only, in key order.
   - It sorts the handles stably by value.
   - It draws one track fill between each pair of adjacent handles. The fill's intent is chosen by a priority chain.
   - A click on the track goes to the nearest handle.
   - On a drag it rebuilds the values. It splices the new value in, re-sorts numerically, and binds each key to the value of the same rank. It then calls `onChange` only when something moved, and `onRelease` every time.
2. **The documentation example** (`AbstractMultiSliderExample`). It shows four intent bounds (danger and warning, start and end) as slider handles, depending on an "intent" and a "tail" option. It merges slider changes back into its state, sorted.
3. **The table's overlay styles** (`overlayStyleUtils`). Each function patches the region style the grid computed, according to the region's cardinality (cells, full rows, full columns, full table). This keeps overlay borders aligned across quadrants and headers.

Modules:

| file | module | what it holds |
|---|---|---|
| `wrappers.dfy` | `Wrappers` | `Option` (JavaScript `null`/`undefined` versus a value) |
| `intents.dfy` | `Intents` | the five intents, `"none"` included |
| `sorting.dfy` | `Sorting` | the stable sort behind `Array.prototype.sort` with a numeric comparator, with its stability and uniqueness lemmas |
| `js_objects.dfy` | `JsObjects` | plain objects as ordered own entries plus inherited entries. Covers `for..in`, `hasOwnProperty`, `Object.keys`, property assignment and object spread |
| `slider_handles.dfy` | `SliderHandles` | `getHandles` and `getSortedHandles` |
| `slider_fill.dfy` | `SliderFill` | `renderFill`, `renderTrackFill` and `getOffsetRatio` |
| `slider_routing.dfy` | `SliderRouting` | `argMin` and `nearestHandleForValue` |
| `slider_reconcile.dfy` | `SliderReconcile` | `getHandlerForIndex`, `handleChange`, `handleRelease` and `computeSliderValues` |
| `slider_component.dfy` | `SliderComponent` | the component's mutable handle-ref list: `addHandleRef`, `componentWillReceiveProps` and the track click and touch handlers |
| `multi_slider_example.dfy` | `MultiSliderExample` | the documentation example's state, the shown handles and `handleChange` |
| `overlay_style_utils.dfy` | `OverlayStyleUtils` | the four overlay-style functions |

How the model is shaped:

- **Loops and mutation stay imperative.** Code that loops or mutates is written as methods with loops and invariants. This covers `getHandles`, `argMin`, `computeSliderValues`, `renderFill`, the component's `handles` field, the example's `setState` and the overlay functions that assign style fields one by one.
- **Each method is proved against a pure function.** Properties are then proved about that function.
- **Numbers are `real`.** JavaScript numbers are modelled as mathematical reals, with no NaN and no rounding.

## Model

| member | source | states |
|---|---|---|
| Sorting.Insert | packages/core/src/components/slider/multiRangeSlider.tsx:231-234 | Inserting into a list adds exactly that element: one longer, same multiset plus the element |
| Sorting.InsertSorted | packages/core/src/components/slider/multiRangeSlider.tsx:231-234 | Inserting into a list sorted by the key keeps it sorted |
| Sorting.SortBy | packages/core/src/components/slider/multiRangeSlider.tsx:231-234 | The comparator sort returns a permutation of its input, ascending by the key |
| Sorting.InsertKeepsKeyClasses | packages/core/src/components/slider/multiRangeSlider.tsx:231-234 | Insertion puts the new element before every element with an equal key, so each class of equal keys keeps the order of the new element followed by the list |
| Sorting.SortByIsStable | packages/core/src/components/slider/multiRangeSlider.tsx:231-234 | Stability: for every key value, the elements with that key appear in the same order after sorting as before |
| Sorting.SortedIsUnique | packages/core/src/components/slider/multiRangeSlider.tsx:206-208 | Two numerically sorted lists with the same multiset are equal, so `arraysEqual` on re-sorted values compares the values as multisets |
| Sorting.SortIgnoresInputOrder | packages/core/src/components/slider/multiRangeSlider.tsx:199-207 | Sorting numerically gives the same list whatever order the input was in, so the earlier lexicographic `sort()` has no effect on what the callbacks see |
| JsObjects.Get | packages/core/src/components/slider/multiRangeSlider.tsx:246 | Reading a property yields a value exactly when the key is present |
| JsObjects.GetAt | packages/core/src/components/slider/multiRangeSlider.tsx:244-246 | With distinct keys, reading the key of entry i yields entry i's value |
| JsObjects.Lookup | packages/core/src/components/slider/multiRangeSlider.tsx:246 | `values[key]` finds the key exactly when it is an own or inherited property. An own property shadows an inherited one |
| JsObjects.Without | packages/core/src/components/slider/multiRangeSlider.tsx:244 | Keeps exactly the keys of the first list that are not in the second, in order |
| JsObjects.ForInKeys | packages/core/src/components/slider/multiRangeSlider.tsx:244-245 | `for..in` visits the own keys first, in order, then only keys that are not own. Every own or inherited key is visited |
| JsObjects.Assign | packages/core/src/components/slider/multiRangeSlider.tsx:226 | Assigning an existing key keeps the key order; assigning a new key appends it at the end |
| JsObjects.AssignGet | packages/core/src/components/slider/multiRangeSlider.tsx:226 | After `o[k] = v`, reading k yields v and every other key reads as before |
| JsObjects.AssignKeepsDistinct | packages/core/src/components/slider/multiRangeSlider.tsx:226 | Assignment never duplicates a key |
| JsObjects.Spread | packages/docs-app/src/examples/core-examples/abstractMultiSliderExample.tsx:157 | `{...base, ...upd}` keeps base's keys first, in order, and keeps keys distinct. It adds no key when upd names only base's keys |
| JsObjects.SpreadGet | packages/docs-app/src/examples/core-examples/abstractMultiSliderExample.tsx:157 | In `{...base, ...upd}`, a key reads upd's value when upd has it and base's value otherwise |
| SliderHandles.HandlesMatchOwnKeys | packages/core/src/components/slider/multiRangeSlider.tsx:241-256 | One handle per own key, in key order. Each carries that key, the key's value and the extras `getHandleProps` returns for it |
| SliderHandles.GetHandles | packages/core/src/components/slider/multiRangeSlider.tsx:241-256 | The `for..in` loop with its `hasOwnProperty` filter builds exactly the own-key handle list; inherited keys are skipped |
| SliderHandles.GetSortedHandles | packages/core/src/components/slider/multiRangeSlider.tsx:231-234 | The sorted handles are a permutation of the handles, ascending by value. Handles with equal values keep their key order |
| SliderFill.FirstPresent | packages/core/src/components/slider/multiRangeSlider.tsx:88 | `filter(x => x != null)[0]` is undefined exactly when all priorities are absent. Otherwise it is the first present one |
| SliderFill.ResolveIntent | packages/core/src/components/slider/multiRangeSlider.tsx:83-88 | A fill has no intent only when neither handle nor the slider supplies one. Otherwise its intent is one of the three candidates |
| SliderFill.ResolveIntentPriority | packages/core/src/components/slider/multiRangeSlider.tsx:83-88 | The fill intent is the left handle's `trackIntentAfter`, else the right handle's `trackIntentBefore`, else the slider's `defaultTrackIntent`, else none |
| SliderFill.DefaultIntentIsFallback | packages/core/src/components/slider/multiRangeSlider.tsx:83-88 | With a default track intent set, every fill has an intent |
| SliderFill.Clamp | packages/core/src/components/slider/multiRangeSlider.tsx:174 | The clamped value lies in the bounds and equals the input whenever the input does |
| SliderFill.GetOffsetRatio | packages/core/src/components/slider/multiRangeSlider.tsx:173-175 | The ratio lies in [0, 1] and equals `(value - min) * tickSizeRatio` clamped to [0, 1] |
| SliderFill.ScaledOffsetMonotone | packages/core/src/components/slider/multiRangeSlider.tsx:174 | For a non-negative tick size ratio, a larger value never gives a smaller scaled offset |
| SliderFill.OffsetRatioMonotone | packages/core/src/components/slider/multiRangeSlider.tsx:173-175 | For a non-negative tick size ratio, offset ratios are monotone in the value |
| SliderFill.RenderTrackFill | packages/core/src/components/slider/multiRangeSlider.tsx:134-171 | No fill when the two values are equal. Otherwise its two ratios are the two handles' offset ratios, ordered, within [0, 1]. The placement is `bottom`/`top` when vertical and `left`/`right` when not, with the far side as `1 - end`. The start, end and empty classes appear exactly when the start handle is of type start, the end handle of type end, and the intent is `"none"` |
| SliderFill.RenderFill | packages/core/src/components/slider/multiRangeSlider.tsx:73-93 | One track per adjacent pair of [min handle, sorted handles, max handle]. Track i is the fill between pair i with the intent the priority chain resolves |
| SliderFill.ExpandedAscending | packages/core/src/components/slider/multiRangeSlider.tsx:74-76 | With every value in [min, max], the expanded handle list is ascending |
| SliderFill.FillsTileTheTrack | packages/core/src/components/slider/multiRangeSlider.tsx:73-93 | With every value in range, each present fill runs from its left handle's ratio to its right handle's ratio without a swap. The first fill starts at 0 |
| SliderRouting.ArgMin | packages/core/src/components/slider/multiRangeSlider.tsx:258-276 | Undefined exactly for an empty list. Otherwise the result is the first element whose key is minimal: none before it has a key as small, and none after it has a smaller one |
| SliderRouting.NearestHandleForValue | packages/core/src/components/slider/multiRangeSlider.tsx:177-184 | Picks the first handle whose value is nearest to the pointer's value, and undefined when there are no handles |
| SliderReconcile.SplicedValues | packages/core/src/components/slider/multiRangeSlider.tsx:195-198 | Replacing position `index` changes that position only. An index past the end appends, as `slice` does |
| SliderReconcile.NumericSort | packages/core/src/components/slider/multiRangeSlider.tsx:207 | `values.slice().sort((left, right) => left - right)` returns the same values, ascending |
| SliderReconcile.ComputeSliderValues | packages/core/src/components/slider/multiRangeSlider.tsx:220-229 | The result has exactly the props' own keys, in order, and the key of rank i holds the i-th sorted value |
| SliderReconcile.HandleChange | packages/core/src/components/slider/multiRangeSlider.tsx:205-211 | `onChange` fires exactly when the numerically sorted new values differ from the current sorted values and a handler exists. It then receives the keys bound to the new values by rank |
| SliderReconcile.HandleRelease | packages/core/src/components/slider/multiRangeSlider.tsx:213-218 | `onRelease` fires exactly when a handler exists, with the keys bound to the sorted values by rank |
| SliderReconcile.HandlerForIndex | packages/core/src/components/slider/multiRangeSlider.tsx:192-203 | Without a callback nothing happens. With one, it sees the current sorted values with position `index` replaced by the new value, whatever order the intermediate `sort()` left them in |
| SliderReconcile.SameValuesAreSilent | packages/core/src/components/slider/multiRangeSlider.tsx:205-211 | A change that only rearranges the current values sorts back to them, so `onChange` is not called |
| SliderReconcile.UnmovedHandleIsSilent | packages/core/src/components/slider/multiRangeSlider.tsx:192-211 | Moving a handle to the value it already has is silent |
| SliderReconcile.CrossingHandleReranks | packages/core/src/components/slider/multiRangeSlider.tsx:192-207 | Dragging the 36 of [12, 36, 72, 90] to 80 yields [12, 72, 80, 90] |
| SliderReconcile.KeyReadsItsRank | packages/core/src/components/slider/multiRangeSlider.tsx:220-229 | In a rank-bound result with distinct keys, reading key i yields the i-th sorted value |
| SliderReconcile.RankBindingExample | packages/core/src/components/slider/multiRangeSlider.tsx:220-229 | Keys a, b, c, d bound to [12, 72, 80, 90] give exactly a=12, b=72, c=80, d=90, in that order |
| SliderReconcile.DragPastNeighbourExample | packages/core/src/components/slider/multiRangeSlider.tsx:192-207 | Dragging the middle handle of [20, 50, 80] to 85 gives [20, 80, 85]: the keys keep their rank, not their value |
| SliderComponent.MultiRangeSlider.constructor | packages/core/src/components/slider/multiRangeSlider.tsx:64 | A new slider, given well-formed props, keeps them, has no handle refs and satisfies the class invariant (its props hold a well-formed value object) |
| SliderComponent.MultiRangeSlider.AddHandleRef | packages/core/src/components/slider/multiRangeSlider.tsx:186-190 | A non-null ref is appended to the handle list; a null one leaves it unchanged; the class invariant is kept |
| SliderComponent.MultiRangeSlider.ComponentWillReceiveProps | packages/core/src/components/slider/multiRangeSlider.tsx:66-71 | The incoming props become the current props. The handle refs are dropped exactly when the incoming props have a different number of handles than the current ones; otherwise they are kept. The class invariant is kept |
| SliderComponent.MultiRangeSlider.HandleTrackClick | packages/core/src/components/slider/multiRangeSlider.tsx:120-132 | A click or touch finds a handle exactly when refs exist. The one found is a registered ref that no ref is nearer to the pointer than. Among equally near refs it is the first registered |
| MultiSliderExample.GetDangerStartHandleValue | packages/docs-app/src/examples/core-examples/abstractMultiSliderExample.tsx:97-103 | Danger start is shown exactly for a danger intent on the lower tail, with the state's value |
| MultiSliderExample.GetWarningStartHandleValue | packages/docs-app/src/examples/core-examples/abstractMultiSliderExample.tsx:105-111 | Warning start is shown exactly for a warning intent on the lower tail, with the state's value |
| MultiSliderExample.GetWarningEndHandleValue | packages/docs-app/src/examples/core-examples/abstractMultiSliderExample.tsx:113-119 | Warning end is shown exactly for a warning intent on the upper tail, with the state's value |
| MultiSliderExample.GetDangerEndHandleValue | packages/docs-app/src/examples/core-examples/abstractMultiSliderExample.tsx:121-127 | Danger end is shown exactly for a danger intent on the upper tail, with the state's value |
| MultiSliderExample.GetSliderValues | packages/docs-app/src/examples/core-examples/abstractMultiSliderExample.tsx:88-95 | The slider's values are a plain object with distinct keys and at most the four bounds |
| MultiSliderExample.PartialGet | packages/docs-app/src/examples/core-examples/abstractMultiSliderExample.tsx:99-102 | `{}` or `{ key: value }` holds only that key |
| MultiSliderExample.SliderValuesHoldShownBounds | packages/docs-app/src/examples/core-examples/abstractMultiSliderExample.tsx:88-95 | The slider's values hold each bound exactly when that bound is shown, with its state value, and no other key |
| MultiSliderExample.NeitherTailShowsNothing | packages/docs-app/src/examples/core-examples/abstractMultiSliderExample.tsx:88-127 | With tail "neither" the slider gets no values |
| MultiSliderExample.BothShowsAllFour | packages/docs-app/src/examples/core-examples/abstractMultiSliderExample.tsx:88-95 | With intent and tail "both" the slider gets all four bounds, in declared order |
| MultiSliderExample.ChangedBounds | packages/docs-app/src/examples/core-examples/abstractMultiSliderExample.tsx:156-161 | The new bounds are ascending: danger start ≤ warning start ≤ warning end ≤ danger end |
| MultiSliderExample.ChangedBoundsPermutes | packages/docs-app/src/examples/core-examples/abstractMultiSliderExample.tsx:157-161 | When the update names only bound keys, the new bounds are a rearrangement of the merged values; no value is lost |
| MultiSliderExample.InitialValuesAscending | packages/docs-app/src/examples/core-examples/abstractMultiSliderExample.tsx:38-43 | The initial bounds 12, 36, 72, 90 are ascending |
| MultiSliderExample.SliderChangeNamesOnlyBounds | packages/docs-app/src/examples/core-examples/abstractMultiSliderExample.tsx:61-63 | Whatever the slider reports back names only bound keys, since it binds the keys the example gave it |
| MultiSliderExample.AbstractMultiSliderExample.constructor | packages/docs-app/src/examples/core-examples/abstractMultiSliderExample.tsx:35-45 | The state starts as intent "both", tail "both", values 12/36/72/90, horizontal |
| MultiSliderExample.AbstractMultiSliderExample.HandleChange | packages/docs-app/src/examples/core-examples/abstractMultiSliderExample.tsx:156-163 | The state's bounds become the merged, sorted values and stay ascending |
| OverlayStyleUtils.BodyOverlay | packages/table/src/common/internal/overlayStyleUtils.ts:18-66 | Cells keep the region style. Full columns and the full table set `top` to "-1px" and `height` to grid height + 1. Full rows and the full table set `left` to "-1px" and `width` to grid width + 1. `right` becomes "-1px" only for rows or table when the right border can be hidden. Nothing else changes |
| OverlayStyleUtils.MenuOverlay | packages/table/src/common/internal/overlayStyleUtils.ts:72-91 | Empty without a viewport. Hidden unless the full table is selected. For the full table, all four offsets are "0px" and the bottom and right borders are "none"; other fields are kept |
| OverlayStyleUtils.ColumnHeaderOverlay | packages/table/src/common/internal/overlayStyleUtils.ts:97-116 | Empty without a viewport. Full columns set only `bottom`. The full table sets `bottom`, `left` and `borderLeft`. Any other cardinality hides the overlay |
| OverlayStyleUtils.RowHeaderOverlay | packages/table/src/common/internal/overlayStyleUtils.ts:122-140 | Empty without a viewport. Full rows set only `right`. The full table sets `right`, `top` and `borderTop`. Any other cardinality hides the overlay |
| OverlayStyleUtils.CanHideRightBorder | packages/table/src/common/internal/overlayStyleUtils.ts:28-31 | The right border can be hidden only when at least one column is frozen. Then it can be hidden exactly in the left and top-left quadrants, never in the main or top quadrant |
| OverlayStyleUtils.RowHeaderMirrorsColumnHeader | packages/table/src/common/internal/overlayStyleUtils.ts:97-140 | The row-header overlay is the column-header overlay of the transposed style and cardinality, transposed back |
| OverlayStyleUtils.BodyFullTableComposes | packages/table/src/common/internal/overlayStyleUtils.ts:43-62 | The full-table body overlay is the full-rows overlay followed by the full-columns overlay |
| OverlayStyleUtils.BodyOverlayIdempotent | packages/table/src/common/internal/overlayStyleUtils.ts:40-65 | Patching a body overlay twice gives the same style as patching it once |
| OverlayStyleUtils.RightBorderKeptOutsideFrozenColumns | packages/table/src/common/internal/overlayStyleUtils.ts:27-31 | In the main and top quadrants, or when `numFrozenColumns` is null or not positive, the body overlay keeps the right offset |
| OverlayStyleUtils.Style.constructor | packages/table/src/common/internal/overlayStyleUtils.ts:25 | A style object holds the given field values |
| OverlayStyleUtils.GetBodyOverlayStyle | packages/table/src/common/internal/overlayStyleUtils.ts:18-66 | Patches the region style object in place and returns that same object, which now holds the body overlay |
| OverlayStyleUtils.GetMenuOverlayStyle | packages/table/src/common/internal/overlayStyleUtils.ts:72-91 | Returns the menu overlay. For the full table it is the patched region style object. Otherwise it is a new object and the region style is untouched |
| OverlayStyleUtils.GetColumnHeaderOverlayStyle | packages/table/src/common/internal/overlayStyleUtils.ts:97-116 | Returns the column-header overlay. For full columns or the full table it is the patched region style object. Otherwise it is a new object and the region style is untouched |
| OverlayStyleUtils.GetRowHeaderOverlayStyle | packages/table/src/common/internal/overlayStyleUtils.ts:122-140 | Returns the row-header overlay. For full rows or the full table it is the patched region style object. Otherwise it is a new object and the region style is untouched |

## Left out

- Rendering is not modelled: JSX, `classNames`, `intentClass` and `formatPercentage`. A track fill is a `Fill` record of its two ratios, its placement, its intent and its class flags.
- `renderHandles`, the `Handle` component's pointer-to-value conversion and its drag state machine are not part of this model. Handle instances are a type parameter `H`, and their pointer offset and current value are functions passed in.
- `tickSizeRatio` comes from the core slider's state after layout measurement, so it is a parameter.
- `CoreSlider` and its `componentWillReceiveProps` (the `super` call) are not part of this model. The same holds for `Utils.clamp`'s error when `max < min`: `Clamp` requires `lo <= hi`, which always holds for the bounds 0 and 1 used here.
- SliderReconcile.HandlerForIndex: the argument-less `newValues.sort()` sorts by string conversion. Here it is an arbitrary rearrangement of its input, which is all the numeric re-sort that follows needs.
- SliderReconcile.ComputeSliderValues: `sortedValues` must have at least as many entries as there are keys. Every caller passes the handles' values with one replaced, so this always holds. `undefined` for a missing rank is not modelled.
- SliderReconcile.HandleChange: `Utils.arraysEqual` is sequence equality.
- `onChange` and `onRelease` are not called. Whether each exists is a flag, and the model returns the values the callback would receive. `getHandleProps` is applied to each key; it is a function value that returns the handle's extras.
- Objects follow JavaScript's property order only for keys that are not array indices. With such keys, insertion order is the enumeration order; the slider's and the example's keys are all of this kind. Integer-like keys such as "0" or "10", which JavaScript lists first in ascending numeric order, are not modelled.
- SliderHandles.GetHandles: `values.hasOwnProperty(key)` is the built-in check. An object with an own property named "hasOwnProperty" would make that call throw; this case is not modelled.
- An omitted `defaultTrackIntent` becomes the "none" intent through the slider's default props (packages/core/src/components/slider/multiRangeSlider.tsx:52-55). So `defaultTrackIntent == None` in `SliderProps` stands only for an explicit `null`.
- A missing `values` prop is not modelled; the slider always has a values object.
- The example's `getSliderHandlerProps`, `getDefaultTrackIntent` and the abstract `get…HandleProps` methods are not modelled. Neither are `renderOptions` and the option toggles (`toggleVertical`, `handleIntentChange`, `handleTailChange`). They only forward user input to `setState`.
- MultiSliderExample.AbstractMultiSliderExample.HandleChange: the in-place `valuesArray.sort` is the stable numeric sort on a sequence, not an array updated in place. Reading the merged object back through `Object.keys` is read as its entries' values in order, since its keys are distinct.
- The overlay functions take the region's cardinality, the grid's height and width, and the region style object as inputs. `Regions.getRegionCardinality`, `Grid.getRegionStyle`, `Grid`, `Rect` and the quadrant component are not part of this model. A null or present `viewportRect` is a flag.
- OverlayStyleUtils.GetBodyOverlayStyle: the `default` branch returning `{ display: "none" }` cannot be reached with the four cardinalities, so the model has no such case.
- CSS values are strings or pixel numbers. No CSS parsing or layout is modelled.
- `position.ts` is not used by the modelled code.
