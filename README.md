# Range slider: geometry engine and interaction controller

A Dafny model of the core of a React range-slider component (`src/Inputrange.js`,
`src/utils.js`). The slider keeps no value of its own. Its owner passes in `min`, `max`, `step`,
`value`, the orientation, the reversal flag and `disabled` as props. The component does three things:

- it measures the usable travel `limit` (track extent minus handle extent) and the
  half-handle offset `grab`;
- it maps values to pixel offsets and pointer positions back to quantised values;
- it reports new values through the owner's `onChangeStart`, `onChange` and
  `onChangeComplete` callbacks.

The model has four modules:

- `Utils`: `clamp` and `capitalize`.
- `Geometry`: the pure engine, over a `Track` value that holds the props it reads and the
  measured `limit` and `grab`. It covers value to pixel (`PositionFromValue`), pixel to
  value (`ValueFromPosition`: clamp the offset, divide by `limit || 1`, round to whole
  steps anchored at `min`, invert for vertical sliders, clamp the result), the
  fill/handle/label offsets (`Coordinates`) and the pointer arithmetic of `position`
  (`PointerOffset`).
- `Controller`: the `Slider` class, whose fields are the component state `active`,
  `limit` and `grab`. Three more fields record whether the document `mousemove`/`mouseup`
  listeners are attached, whether the resize observer is watching, and the lifecycle
  phase. Its methods are the handlers. Callbacks are not called: each handler returns a
  `Dispatch`, which is the callback call it would make, nothing, or a `TypeError` that
  escapes it.
- `Wrappers`: `Option`.

Numbers are exact reals, and `Math.round` is `Round(x) = (x + 1/2).Floor`. `limit` is an
integer because it is a difference of `offsetWidth`/`offsetHeight` readings. Measured
extents, the client coordinate, the track's bounding box and the key code are parameters.
`ValueFromPosition` needs `step > 0` and `PositionFromValue` needs `min < max`. These are
the caller's contract: with `step == 0` or `max == min` the source divides by zero and
produces `NaN` or `Infinity`.

Behaviour kept as the code has it:

- `handleStart` (src/Inputrange.js:121-136) passes the event, not a value, to
  `onChangeStart`. So `ChangeStart` carries no value.
- With `limit == 0`, `clamp(pos, 0, limit)` is 0 and the divisor `limit || 1` is 1
  (src/Inputrange.js:247), so the step count is 0. A horizontal slider then reads `min`
  and a vertical one reads `max` (src/Inputrange.js:249).
- `handleEnd` returns early, keeping the drag active and the listeners attached,
  unless the slider is enabled and `onChangeComplete` is bound
  (src/Inputrange.js:176-178; see Findings).
- `getValue` calls `position(e)` before it looks at a label's `data-value`
  (src/Inputrange.js:138-152). `position` reads `e.touches[0]` whenever `touches` is
  present (src/Inputrange.js:268-270). So an event whose touch list is empty (a
  `touchend`) throws even on a label item. The model returns `TypeError` with the
  state unchanged.

## Model

| member | source | states |
|---|---|---|
| `Utils.Clamp` | src/utils.js:18-20 | result lies in [lo, hi] when lo <= hi; it is the value itself inside the range, lo below it, hi above it; with an empty range the upper bound wins |
| `Utils.ClampIdempotent` | src/utils.js:18-20 | clamping twice equals clamping once |
| `Utils.ClampMonotone` | src/utils.js:18-20 | clamp preserves the order of its inputs |
| `Utils.Capitalize` | src/utils.js:7-9 | length kept, every character after the first kept, first character upper-cased, "" maps to "", a string not starting with a lower-case letter is unchanged |
| `Utils.CapitalizeIdempotent` | src/utils.js:7-9 | capitalizing twice equals capitalizing once |
| `Geometry.Round` | src/Inputrange.js:233 | `Math.round` lands within half of its argument, ties going up |
| `Geometry.PositionFromValue` | src/Inputrange.js:227-236 | the handle offset of a value is `Math.round` of its share of the domain times `limit`; its properties are the three lemmas below |
| `Geometry.PositionFromValueEnds` | src/Inputrange.js:227-236 | `min` maps to pixel 0 and `max` maps to pixel `limit` exactly |
| `Geometry.PositionFromValueWithin` | src/Inputrange.js:227-236 | a value in [min, max] maps into [0, limit] |
| `Geometry.PositionFromValueMonotone` | src/Inputrange.js:227-236 | a larger value never maps to a smaller pixel |
| `Geometry.Percentage` | src/Inputrange.js:246 | the covered share lies in [0, 1] for every offset, including a negative limit, and is 0 when `limit == 0` (division by 1, never by 0) |
| `Geometry.ValueFromPosition` | src/Inputrange.js:243-251 | for any offset the value lies in [min, max] |
| `Geometry.ValueFromPositionOnGrid` | src/Inputrange.js:247-250 | the value is a whole number of steps from `min` (horizontal) or from `max` (vertical), unless the final clamp cut it to the far bound |
| `Geometry.ValueFromPositionDegenerate` | src/Inputrange.js:246-248 | with `limit == 0` every offset reads `min` on a horizontal slider and `max` on a vertical one |
| `Geometry.ValueFromPositionBeforeTrack` | src/Inputrange.js:246-250 | an offset at or before 0 reads `min` (horizontal) or `max` (vertical) |
| `Geometry.ValueFromPositionPastTrack` | src/Inputrange.js:246-250 | an offset at or past `limit` reads like `limit`; that is `max` (horizontal) or `min` (vertical) when the domain is a whole number of steps long |
| `Geometry.ValueFromPositionMonotone` | src/Inputrange.js:246-250 | for fixed props the value is non-decreasing in the offset when horizontal and non-increasing when vertical |
| `Geometry.RoundTripWithinQuantum` | src/Inputrange.js:227-251 | value to pixel to value comes back within half a step plus half a pixel's worth of domain, of `v` when horizontal and of `max + min - v` when vertical |
| `Geometry.Coordinates` | src/Inputrange.js:285-300 | label equals handle; fill equals handle on a horizontal, non-reversed slider, and fill plus handle equals `limit` otherwise |
| `Geometry.CoordinatesWithin` | src/Inputrange.js:285-300 | the handle offset, less `grab` when horizontal, lies in [0, limit]; a vertical fill lies in [0, limit] |
| `Geometry.HandleTracksValue` | src/Inputrange.js:327-331 | the handle is drawn at an offset from the start edge (left or top, right or bottom when reversed); as the value grows that offset grows on a horizontal slider and shrinks on a vertical one; the fill grows, except on a reversed horizontal slider, where it shrinks |
| `Geometry.StartEdge` | src/Inputrange.js:264-266 | the edge offsets are measured from: the `direction` side (left or top), or the `reverseDirection` side (right or bottom) when reversed; the bounding-box side read at line 271 |
| `Geometry.PointerOffset` | src/Inputrange.js:272-274 | offset plus `grab` is the pointer's distance from the start edge, measured towards the start edge when reversed; the property that follows from it is `DragDirection` |
| `Geometry.DragDirection` | src/Inputrange.js:258-278 | moving the pointer to larger client coordinates raises the value when horizontal and not reversed, or vertical and reversed, and lowers it in the other two cases |
| `Controller.PropertyNames` | src/Inputrange.js:106-109 | `capitalize` builds `offsetWidth`, `offsetHeight`, `clientX` and `clientY` from the orientation constants |
| `Controller.ClientCoordinate` | src/Inputrange.js:267-270 | a mouse event gives its own coordinate and a touch event its first touch point's; an empty touch list gives none |
| `Controller.KeyTarget` | src/Inputrange.js:206-219 | Up/Right step up and stop at `max`; Left/Down step down and stop at `min`; other keys give nothing; from inside [min, max] the result stays inside |
| `Controller.KeyAtBounds` | src/Inputrange.js:210-216 | Up at `max` gives `max`; Down at `min` gives `min` |
| `Controller.KeyUpThenDown` | src/Inputrange.js:206-219 | away from the bounds, Down undoes Up |
| `Controller.HeldUpReachesMax` | src/Inputrange.js:210 | after n Up presses, each emitted value fed back, the value is `max` once n steps cover the distance |
| `Controller.HeldDownReachesMin` | src/Inputrange.js:216 | after n Down presses, each emitted value fed back, the value is `min` once n steps cover the distance |
| `Controller.ShowTooltip` | src/Inputrange.js:334 | never shown when `off`, always shown when `always`, shown exactly while active when `on` |
| `Controller.Slider.constructor` | src/Inputrange.js:61-70 | starts inactive with `limit` 0, `grab` 0, no listeners and no observation |
| `Controller.Slider.HandleUpdate` | src/Inputrange.js:101-115 | keeps `Valid`; with no rendered node nothing changes; otherwise `limit` plus the handle extent is the slider extent and `grab` is half the handle extent; nothing else changes |
| `Controller.Slider.DidMount` | src/Inputrange.js:82-85 | measures as `HandleUpdate` does and starts observing resizes |
| `Controller.Slider.WillUnmount` | src/Inputrange.js:72-80 | detaches the document listeners, even mid-drag, and stops observing |
| `Controller.Slider.HandleStart` | src/Inputrange.js:121-136 | disabled: no call and no state change; otherwise active with listeners attached, an `on` tooltip shown, and `onChangeStart` called exactly when bound |
| `Controller.Slider.Position` | src/Inputrange.js:258-278 | throws exactly when the event has no coordinate to read; otherwise the value lies in [min, max] |
| `Controller.Slider.GetValue` | src/Inputrange.js:138-152 | `undefined` on the label list; a label item's `data-value` exactly, whatever the pixel arithmetic gives; otherwise exactly the value `position` reads, which lies in [min, max]; throws exactly when no coordinate can be read |
| `Controller.Slider.HandleDrag` | src/Inputrange.js:159-168 | no call when disabled or `onChange` is unbound; otherwise `onChange` with exactly what `GetValue` returns (the label's value, `undefined` on the label list, or the in-range value under the pointer); throws exactly when no coordinate can be read |
| `Controller.Slider.HandleEnd` | src/Inputrange.js:174-191 | disabled or `onChangeComplete` unbound: no call and no state change, so the drag stays active; otherwise, unless reading the value throws, inactive, listeners detached and `onChangeComplete` called with the value read |
| `Controller.Slider.HandleEndReleasing` | src/Inputrange.js:174-191 | corrected `handleEnd`: unless disabled or the read throws, every release ends the drag and detaches the listeners; the callback depends only on `onChangeComplete` |
| `Controller.Slider.HandleKeyDown` | src/Inputrange.js:198-220 | disabled: nothing; arrow keys prevent the default action and, when `onChange` is bound, call it with exactly `KeyTarget` of the key (`value + step` for Up/Right, or `max` when that passes `max`; `value - step` for Left/Down, or `min` when that passes `min`), which is in range; Up at `max` emits `max`; Down at `min` emits `min`; other keys do nothing |
| `Controller.Slider.Layout` | src/Inputrange.js:330-334 | the handle for the current value stays within the travel, the label sits at the handle, and the tooltip follows `ShowTooltip` |
| `Controller.ReleaseWithoutCompleteHandler` | src/Inputrange.js:174-178 | as written: mount, press and release on an enabled slider with no `onChangeComplete` leaves it active, listening and showing an `on` tooltip |
| `Controller.ReleaseWithoutCompleteHandlerCorrected` | src/Inputrange.js:174-191 | with the corrected handler the same sequence leaves it inactive, not listening and with the tooltip hidden |

## Left out

- Rendering (src/Inputrange.js:302-414): JSX, `classnames`, styles and the `aria-*` attributes are not modelled. Only the offsets and the tooltip rule are (`Slider.Layout`).
- Label list rendering (src/Inputrange.js:336-361) is not modelled. It is UI. Its comparator `a - b` coerces the string keys to numbers and sorts descending unless reversed. Its `for (const key in labelKeys)` walks array indices rather than the sorted keys, so positions, `data-value` and contents come from the index, not the label. Nothing about label placement is proved.
- `handleFormat` and the user's `format` (src/Inputrange.js:92-95) are a foreign function and are not modelled.
- Browser I/O is not modelled. The `ResizeObserver`, `offsetWidth`/`offsetHeight`, `getBoundingClientRect` and `document.addEventListener`/`removeEventListener` become parameters (`Extents`, `Rect`, the client coordinate) and boolean fields (`listening`, `observing`).
- `setState` is modelled as synchronous. Its completion callback is the returned `Dispatch`.
- `e.stopPropagation()` is not modelled. `e.preventDefault()` on arrow keys is a returned flag.
- Floating point (IEEE-754) is not modelled: numbers are exact reals. `parseFloat` of a non-numeric `data-value` (`NaN`) is not modelled: a label item's value is an `Option<real>`.
- `Utils.Capitalize` upper-cases ASCII letters only, not the full Unicode mapping of `toUpperCase`.
- A slider div receives both its own `onMouseUp` and the document `mouseup`, so one release can reach `handleEnd` twice. Each call is modelled on its own.

## Findings

| source | as written | input that shows it | evidently intended | confidence | as-written member | corrected member |
|---|---|---|---|---|---|---|
| src/Inputrange.js:176-178 | `handleEnd` returns before clearing `active` and detaching the document listeners when `onChangeComplete` is not bound | an enabled slider with `onChange` bound and no `onChangeComplete`: press the handle, then release the mouse | every release ends the drag and detaches the listeners; only the `onChangeComplete` call depends on it being bound | high, not executed | `Controller.ReleaseWithoutCompleteHandler` | `Controller.Slider.HandleEndReleasing` |
