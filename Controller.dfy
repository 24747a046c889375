/**
 * The slider's interaction controller (src/Inputrange.js): its state (`active`, the
 * measured `limit` and `grab`, whether the document listeners are attached) and the
 * handlers for measurement, drag, touch and keyboard events. Callbacks the owner binds
 * (`onChangeStart`, `onChange`, `onChangeComplete`) are not called: a handler returns
 * the call it would make, and the owner feeds any new value back through the props.
 */
module Controller {
  import opened Wrappers
  import opened Utils
  import opened Geometry

  datatype TooltipMode = Off | On | Always

  /** The props the controller reads; `hasOn...` says whether that callback is bound. */
  datatype Props = Props(
    min: real, max: real, step: real, value: real,
    orientation: Orientation, reverse: bool, disabled: bool, tooltip: TooltipMode,
    hasOnChangeStart: bool, hasOnChange: bool, hasOnChangeComplete: bool)

  /** What the owner promises: a non-empty domain and a positive step. */
  predicate WellFormed(p: Props)
  {
    p.min < p.max && 0.0 < p.step
  }

  datatype Point = Point(x: real, y: real)

  /**
   * What a pointer event landed on, as `getValue` tells it apart: the label list, a
   * label item (with its `data-value`, parsed, when present and non-empty), or any
   * other part of the slider.
   */
  datatype Target = LabelList | LabelItem(dataValue: Option<real>) | Elsewhere

  /**
   * A mouse or touch event: the client position, the touch list (`None` for a mouse
   * event), the target, and the bounding box of the slider node at that moment.
   */
  datatype PointerEvent = PointerEvent(client: Point, touches: Option<seq<Point>>, target: Target, track: Rect)

  /** A callback call; `None` stands for JavaScript's `undefined`. */
  datatype Callback = ChangeStart | Change(value: Option<real>) | ChangeComplete(value: Option<real>)

  /** What a handler did: nothing, one callback call, or a `TypeError` it let escape. */
  datatype Dispatch = Silent | Fired(callback: Callback) | TypeError

  /** The outcome of an expression that may throw. */
  datatype Completion<T> = Normal(result: T) | Thrown

  /** `offsetWidth`/`offsetHeight` of the slider and of its handle along the active axis. */
  datatype Extents = Extents(slider: nat, handle: nat)

  datatype Phase = Constructed | Mounted | Unmounted

  const KeyLeft := 37
  const KeyUp := 38
  const KeyRight := 39
  const KeyDown := 40

  function Dimension(o: Orientation): string
  {
    if o == Horizontal then "width" else "height"
  }

  function CoordinateName(o: Orientation): string
  {
    if o == Horizontal then "x" else "y"
  }

  /** `handleUpdate` and `position` build DOM property names with `capitalize`. */
  lemma PropertyNames()
    ensures "offset" + Capitalize(Dimension(Horizontal)) == "offsetWidth"
    ensures "offset" + Capitalize(Dimension(Vertical)) == "offsetHeight"
    ensures "client" + Capitalize(CoordinateName(Horizontal)) == "clientX"
    ensures "client" + Capitalize(CoordinateName(Vertical)) == "clientY"
  {
  }

  function Along(pt: Point, o: Orientation): real
  {
    if o == Horizontal then pt.x else pt.y
  }

  /**
   * The client coordinate `position` reads: the event's own for a mouse event, the
   * first touch point's for a touch event. An empty touch list has no first point;
   * reading a coordinate from it throws.
   */
  function ClientCoordinate(e: PointerEvent, o: Orientation): (c: Option<real>)
    ensures e.touches.None? ==> c == Some(Along(e.client, o))
    ensures e.touches.Some? ==> (c.Some? <==> |e.touches.value| > 0)
    ensures e.touches.Some? && c.Some? ==> c.value == Along(e.touches.value[0], o)
  {
    match e.touches
    case None => Some(Along(e.client, o))
    case Some(points) => if |points| == 0 then None else Some(Along(points[0], o))
  }

  /**
   * The key-to-value step of `handleKeyDown`: Up and Right step up and stop at `max`,
   * Left and Down step down and stop at `min`, other keys do nothing.
   */
  function KeyTarget(key: int, value: real, min: real, max: real, step: real): (r: Option<real>)
    ensures r.Some? <==> key in {KeyLeft, KeyUp, KeyRight, KeyDown}
    ensures key in {KeyUp, KeyRight} ==>
      r.value <= max && (value + step <= max ==> r.value == value + step) && (value + step > max ==> r.value == max)
    ensures key in {KeyLeft, KeyDown} ==>
      min <= r.value && (min <= value - step ==> r.value == value - step) && (value - step < min ==> r.value == min)
    ensures r.Some? && min <= value <= max && 0.0 < step ==> min <= r.value <= max
  {
    if key == KeyUp || key == KeyRight then
      Some(if value + step > max then max else value + step)
    else if key == KeyLeft || key == KeyDown then
      Some(if value - step < min then min else value - step)
    else
      None
  }

  /** Up at `max` gives `max`, Down at `min` gives `min`. */
  lemma KeyAtBounds(min: real, max: real, step: real)
    requires 0.0 < step
    ensures KeyTarget(KeyUp, max, min, max, step) == Some(max)
    ensures KeyTarget(KeyRight, max, min, max, step) == Some(max)
    ensures KeyTarget(KeyDown, min, min, max, step) == Some(min)
    ensures KeyTarget(KeyLeft, min, min, max, step) == Some(min)
  {
  }

  /** Away from the bounds, a step down undoes a step up. */
  lemma KeyUpThenDown(value: real, min: real, max: real, step: real)
    requires 0.0 < step && min <= value && value + step <= max
    ensures KeyTarget(KeyDown, KeyTarget(KeyUp, value, min, max, step).value, min, max, step) == Some(value)
  {
  }

  /** The value after `n` presses of an arrow key, each emitted value fed back as the next `value`. */
  function Presses(key: int, n: nat, value: real, min: real, max: real, step: real): real
    requires key in {KeyLeft, KeyUp, KeyRight, KeyDown}
    decreases n
  {
    if n == 0 then value
    else Presses(key, n - 1, KeyTarget(key, value, min, max, step).value, min, max, step)
  }

  /** Holding Up from inside the domain reaches `max` once the steps cover the distance, and stays there. */
  lemma {:induction false} HeldUpReachesMax(n: nat, value: real, min: real, max: real, step: real)
    requires 0.0 < step && min <= value <= max
    requires max - value <= n as real * step
    ensures Presses(KeyUp, n, value, min, max, step) == max
  {
    if n > 0 {
      var next := KeyTarget(KeyUp, value, min, max, step).value;
      assert (n - 1) as real * step == n as real * step - step;
      HeldUpReachesMax(n - 1, next, min, max, step);
    }
  }

  /** Holding Down from inside the domain reaches `min` once the steps cover the distance, and stays there. */
  lemma {:induction false} HeldDownReachesMin(n: nat, value: real, min: real, max: real, step: real)
    requires 0.0 < step && min <= value <= max
    requires value - min <= n as real * step
    ensures Presses(KeyDown, n, value, min, max, step) == min
  {
    if n > 0 {
      var next := KeyTarget(KeyDown, value, min, max, step).value;
      assert (n - 1) as real * step == n as real * step - step;
      HeldDownReachesMin(n - 1, next, min, max, step);
    }
  }

  /** The `showTooltip` rule of `render`. */
  function ShowTooltip(mode: TooltipMode, active: bool): (shown: bool)
    ensures mode == Off ==> !shown
    ensures mode == Always ==> shown
    ensures mode == On ==> (shown <==> active)
  {
    mode == Always || (mode == On && active)
  }

  /** The component instance: its state and its event handlers. */
  class Slider {
    var active: bool
    var limit: int
    var grab: real
    /** The `mousemove`/`mouseup` listeners are attached to the document. */
    var listening: bool
    /** The resize observer watches the slider node. */
    var observing: bool
    var phase: Phase

    /**
     * Until unmounting, the document listeners are attached exactly while a drag is
     * active; the resize observer watches exactly while mounted.
     */
    ghost predicate Valid()
      reads this
    {
      (phase != Unmounted ==> (listening <==> active)) &&
      (observing <==> phase == Mounted)
    }

    /** The geometry the engine reads: the props' domain and axis, this state's measurements. */
    function TrackOf(p: Props): (t: Track)
      reads this
      ensures t.min == p.min && t.max == p.max && t.step == p.step
      ensures t.orientation == p.orientation && t.reverse == p.reverse
      ensures t.limit == limit && t.grab == grab
    {
      Track(p.min, p.max, p.step, p.orientation, p.reverse, limit, grab)
    }

    constructor ()
      ensures Valid() && phase == Constructed
      ensures !active && limit == 0 && grab == 0.0 && !listening && !observing
    {
      active, limit, grab := false, 0, 0.0;
      listening, observing := false, false;
      phase := Constructed;
    }

    /**
     * `handleUpdate`: remeasure. With no rendered node (shallow rendering) nothing
     * changes; otherwise `limit` becomes the travel left by the handle and `grab` half
     * the handle's extent.
     */
    method HandleUpdate(rendered: Option<Extents>)
      requires Valid()
      modifies this
      ensures Valid()
      ensures rendered.None? ==> limit == old(limit) && grab == old(grab)
      ensures rendered.Some? ==>
        limit + rendered.value.handle == rendered.value.slider && 2.0 * grab == rendered.value.handle as real
      ensures rendered.Some? ==> (0 <= limit <==> rendered.value.handle <= rendered.value.slider)
      ensures active == old(active) && listening == old(listening)
      ensures observing == old(observing) && phase == old(phase)
    {
      if rendered.None? {
        return;
      }
      var sliderPos, handlePos := rendered.value.slider, rendered.value.handle;
      limit := sliderPos as int - handlePos as int;
      grab := handlePos as real / 2.0;
    }

    /** `componentDidMount`: measure, then start watching for resizes. */
    method DidMount(rendered: Option<Extents>)
      requires Valid() && phase == Constructed
      modifies this
      ensures Valid() && phase == Mounted && observing
      ensures rendered.Some? ==>
        limit + rendered.value.handle == rendered.value.slider && 2.0 * grab == rendered.value.handle as real
      ensures rendered.None? ==> limit == old(limit) && grab == old(grab)
      ensures active == old(active) && listening == old(listening)
    {
      HandleUpdate(rendered);
      observing := true;
      phase := Mounted;
    }

    /** `componentWillUnmount`: detach the document listeners and stop watching, even mid-drag. */
    method WillUnmount()
      requires Valid() && phase == Mounted
      modifies this
      ensures Valid() && phase == Unmounted
      ensures !listening && !observing
      ensures active == old(active) && limit == old(limit) && grab == old(grab)
    {
      listening := false;
      observing := false;
      phase := Unmounted;
    }

    /**
     * `handleStart`: unless disabled, attach the document listeners, become active and
     * call `onChangeStart` (with the event, so with no value) when it is bound.
     */
    method HandleStart(p: Props) returns (d: Dispatch)
      requires Valid()
      modifies this
      ensures Valid()
      ensures p.disabled ==> d == Silent && active == old(active) && listening == old(listening)
      ensures !p.disabled ==> active && listening
      ensures !p.disabled ==> (d == Fired(ChangeStart) <==> p.hasOnChangeStart)
      ensures !p.disabled && !p.hasOnChangeStart ==> d == Silent
      ensures !p.disabled ==> ShowTooltip(p.tooltip, active) == (p.tooltip != Off)
      ensures limit == old(limit) && grab == old(grab)
      ensures observing == old(observing) && phase == old(phase)
    {
      if p.disabled {
        return Silent;
      }
      listening := true;
      active := true;
      d := if p.hasOnChangeStart then Fired(ChangeStart) else Silent;
    }

    /** `position`: the value under the pointer, or a throw when there is no coordinate to read. */
    function Position(p: Props, e: PointerEvent): (c: Completion<real>)
      reads this
      requires 0.0 < p.step
      ensures c.Thrown? <==> ClientCoordinate(e, p.orientation).None?
      ensures c.Normal? && p.min <= p.max ==> p.min <= c.result <= p.max
    {
      match ClientCoordinate(e, p.orientation)
      case None => Thrown
      case Some(coordinate) =>
        var t := TrackOf(p);
        var edge := StartEdge(e.track, p.orientation, p.reverse);
        Normal(ValueFromPosition(t, PointerOffset(t, coordinate, edge)))
    }

    /**
     * `getValue`: `undefined` on the label list; otherwise the value under the pointer,
     * replaced by a label item's own `data-value` when it has one (which snaps exactly,
     * whatever the pixel arithmetic gives). The pointer is read first, so an event with
     * no coordinate throws even on a label item.
     */
    function GetValue(p: Props, e: PointerEvent): (c: Completion<Option<real>>)
      reads this
      requires 0.0 < p.step
      ensures e.target == LabelList ==> c == Normal(None)
      ensures e.target != LabelList ==> (c.Thrown? <==> ClientCoordinate(e, p.orientation).None?)
      ensures c.Normal? && e.target.LabelItem? && e.target.dataValue.Some? ==>
        c.result == Some(e.target.dataValue.value)
      ensures c.Normal? && e.target != LabelList && !(e.target.LabelItem? && e.target.dataValue.Some?) ==>
        c.result.Some? && (p.min <= p.max ==> p.min <= c.result.value <= p.max)
      ensures e.target != LabelList && !(e.target.LabelItem? && e.target.dataValue.Some?) && Position(p, e).Normal?
              ==> c == Normal(Some(Position(p, e).result))
    {
      if e.target == LabelList then Normal(None)
      else
        match Position(p, e)
        case Thrown => Thrown
        case Normal(value) =>
          if e.target.LabelItem? && e.target.dataValue.Some? then Normal(Some(e.target.dataValue.value))
          else Normal(Some(value))
    }

    /**
     * `handleDrag` (mouse move, track or label press, touch move): nothing when disabled
     * or when `onChange` is unbound; otherwise `onChange` with the value `getValue`
     * reads. The state does not change.
     */
    method HandleDrag(p: Props, e: PointerEvent) returns (d: Dispatch)
      requires 0.0 < p.step
      ensures p.disabled || !p.hasOnChange ==> d == Silent
      ensures !p.disabled && p.hasOnChange && e.target == LabelList ==> d == Fired(Change(None))
      ensures !p.disabled && p.hasOnChange && e.target != LabelList ==>
        (d == TypeError <==> ClientCoordinate(e, p.orientation).None?)
      ensures !p.disabled && p.hasOnChange && e.target.LabelItem? && e.target.dataValue.Some? &&
              ClientCoordinate(e, p.orientation).Some?
              ==> d == Fired(Change(e.target.dataValue))
      ensures d.Fired? && e.target != LabelList ==> d.callback.Change? && d.callback.value.Some?
      ensures d.Fired? && e.target == Elsewhere && p.min <= p.max ==>
        p.min <= d.callback.value.value <= p.max
      ensures !p.disabled && p.hasOnChange && GetValue(p, e).Normal? ==>
        d == Fired(Change(GetValue(p, e).result))
    {
      if p.disabled || !p.hasOnChange {
        return Silent;
      }
      var value := GetValue(p, e);
      d := if value.Thrown? then TypeError else Fired(Change(value.result));
    }

    /**
     * `handleEnd` as written: nothing when disabled or when `onChangeComplete` is
     * unbound (the listeners stay attached and the drag stays active); otherwise read
     * the value, become inactive, detach the listeners and call `onChangeComplete`.
     * A throw while reading the value leaves the state as it was.
     */
    method HandleEnd(p: Props, e: PointerEvent) returns (d: Dispatch)
      requires Valid() && 0.0 < p.step
      modifies this
      ensures Valid()
      ensures limit == old(limit) && grab == old(grab)
      ensures observing == old(observing) && phase == old(phase)
      ensures p.disabled || !p.hasOnChangeComplete ==>
        d == Silent && active == old(active) && listening == old(listening)
      ensures !p.disabled && p.hasOnChangeComplete && GetValue(p, e).Thrown? ==>
        d == TypeError && active == old(active) && listening == old(listening)
      ensures !p.disabled && p.hasOnChangeComplete && GetValue(p, e).Normal? ==>
        d == Fired(ChangeComplete(GetValue(p, e).result)) && !active && !listening
    {
      if p.disabled || !p.hasOnChangeComplete {
        return Silent;
      }
      var value := GetValue(p, e);
      if value.Thrown? {
        return TypeError;
      }
      active := false;
      listening := false;
      d := Fired(ChangeComplete(value.result));
    }

    /**
     * `handleEnd` as evidently intended: unless disabled, every pointer release ends
     * the drag and detaches the listeners; `onChangeComplete` is called only when bound.
     */
    method HandleEndReleasing(p: Props, e: PointerEvent) returns (d: Dispatch)
      requires Valid() && 0.0 < p.step
      modifies this
      ensures Valid()
      ensures limit == old(limit) && grab == old(grab)
      ensures observing == old(observing) && phase == old(phase)
      ensures p.disabled ==> d == Silent && active == old(active) && listening == old(listening)
      ensures !p.disabled && !p.hasOnChangeComplete ==> d == Silent && !active && !listening
      ensures !p.disabled && p.hasOnChangeComplete && GetValue(p, e).Thrown? ==>
        d == TypeError && active == old(active) && listening == old(listening)
      ensures !p.disabled && p.hasOnChangeComplete && GetValue(p, e).Normal? ==>
        d == Fired(ChangeComplete(GetValue(p, e).result)) && !active && !listening
    {
      if p.disabled {
        return Silent;
      }
      d := Silent;
      if p.hasOnChangeComplete {
        var value := GetValue(p, e);
        if value.Thrown? {
          return TypeError;
        }
        d := Fired(ChangeComplete(value.result));
      }
      active := false;
      listening := false;
    }

    /**
     * `handleKeyDown`: unless disabled, the four arrow keys suppress the default action
     * and call `onChange` (when bound) with the stepped, clamped value; other keys do
     * nothing. The state does not change.
     */
    method HandleKeyDown(p: Props, key: int) returns (preventDefault: bool, d: Dispatch)
      ensures p.disabled ==> !preventDefault && d == Silent
      ensures !p.disabled ==> (preventDefault <==> key in {KeyLeft, KeyUp, KeyRight, KeyDown})
      ensures d != TypeError
      ensures d.Fired? ==> d.callback.Change? && d.callback.value.Some?
      ensures d.Fired? <==> !p.disabled && p.hasOnChange && key in {KeyLeft, KeyUp, KeyRight, KeyDown}
      ensures d.Fired? && key in {KeyUp, KeyRight} ==> d.callback.value.value <= p.max
      ensures d.Fired? && key in {KeyLeft, KeyDown} ==> p.min <= d.callback.value.value
      ensures d.Fired? && p.min <= p.value <= p.max && 0.0 < p.step ==>
        p.min <= d.callback.value.value <= p.max
      ensures d.Fired? && key in {KeyUp, KeyRight} && p.value == p.max && 0.0 < p.step ==>
        d == Fired(Change(Some(p.max)))
      ensures d.Fired? && key in {KeyLeft, KeyDown} && p.value == p.min && 0.0 < p.step ==>
        d == Fired(Change(Some(p.min)))
      ensures d.Fired? ==> d == Fired(Change(KeyTarget(key, p.value, p.min, p.max, p.step)))
    {
      preventDefault, d := false, Silent;
      if p.disabled {
        return;
      }
      var sliderValue := KeyTarget(key, p.value, p.min, p.max, p.step);
      if sliderValue.Some? {
        preventDefault := true;
        if p.hasOnChange {
          d := Fired(Change(sliderValue));
        }
      }
    }

    /**
     * What `render` draws: the fill, handle and label offsets for the current value,
     * and whether the tooltip shows.
     */
    function Layout(p: Props): (layout: (Coords, bool))
      reads this
      requires WellFormed(p)
      ensures layout.1 == ShowTooltip(p.tooltip, active)
      ensures 0 <= limit ==> 0.0 <= layout.0.handlePos - HandleShift(TrackOf(p)) <= limit as real
      ensures layout.0.labelPos == layout.0.handlePos
    {
      var t := TrackOf(p);
      var position := PositionFromValue(t, p.value);
      var coords := Coordinates(t, position as real);
      if 0 <= limit then
        CoordinatesWithin(t, position as real);
        (coords, ShowTooltip(p.tooltip, active))
      else
        (coords, ShowTooltip(p.tooltip, active))
    }
  }

  /**
   * As written, a drag on a slider with no `onChangeComplete` never ends: after the
   * mouse is released the slider is still active, the document listeners are still
   * attached and an `on` tooltip is still shown.
   */
  method ReleaseWithoutCompleteHandler() returns (stillActive: bool, stillListening: bool, tooltipShown: bool)
    ensures stillActive && stillListening && tooltipShown
  {
    var p := Props(0.0, 100.0, 1.0, 0.0, Horizontal, false, false, On, false, true, false);
    var release := PointerEvent(Point(10.0, 0.0), None, Elsewhere, Rect(0.0, 200.0, 0.0, 20.0));
    var s := new Slider();
    s.DidMount(Some(Extents(200, 20)));
    var started := s.HandleStart(p);
    var ended := s.HandleEnd(p, release);
    stillActive, stillListening := s.active, s.listening;
    tooltipShown := ShowTooltip(p.tooltip, s.active);
  }

  /** With the corrected handler, the same release ends the drag and hides the tooltip. */
  method ReleaseWithoutCompleteHandlerCorrected() returns (stillActive: bool, stillListening: bool, tooltipShown: bool)
    ensures !stillActive && !stillListening && !tooltipShown
  {
    var p := Props(0.0, 100.0, 1.0, 0.0, Horizontal, false, false, On, false, true, false);
    var release := PointerEvent(Point(10.0, 0.0), None, Elsewhere, Rect(0.0, 200.0, 0.0, 20.0));
    var s := new Slider();
    s.DidMount(Some(Extents(200, 20)));
    var started := s.HandleStart(p);
    var ended := s.HandleEndReleasing(p, release);
    stillActive, stillListening := s.active, s.listening;
    tooltipShown := ShowTooltip(p.tooltip, s.active);
  }
}
