/**
 * The slider's geometry engine (src/Inputrange.js): the map from a domain value in
 * [min, max] to a pixel offset in [0, limit] and back, the fill/handle/label offsets,
 * and the pointer-to-offset arithmetic. Numbers are exact reals; pixel offsets
 * produced by `Math.round` are integers.
 */
module Geometry {
  import opened Utils

  datatype Orientation = Horizontal | Vertical

  /**
   * What the engine reads: the domain bounds, the step, the axis and the reversal flag
   * (props), and the measured travel `limit` and half-handle `grab` (component state).
   * `limit` is a difference of two `offsetWidth`/`offsetHeight` readings, so an integer.
   */
  datatype Track = Track(
    min: real, max: real, step: real,
    orientation: Orientation, reverse: bool,
    limit: int, grab: real)

  /** The bounding box of the track node, in client coordinates. */
  datatype Rect = Rect(left: real, right: real, top: real, bottom: real)

  /** `Math.round`: round half up. */
  function Round(x: real): (r: int)
    ensures x - 0.5 < r as real <= x + 0.5
  {
    (x + 0.5).Floor
  }

  lemma RoundMonotone(x: real, y: real)
    requires x <= y
    ensures Round(x) <= Round(y)
  {
  }

  lemma RoundOfInteger(n: int)
    ensures Round(n as real) == n
  {
  }

  /** A fraction in [0, 1] of a non-negative length stays within that length. */
  lemma ScaleWithin(p: real, len: real)
    requires 0.0 <= p <= 1.0 && 0.0 <= len
    ensures 0.0 <= p * len <= len
  {
    assert p * len <= 1.0 * len;
  }

  lemma ScaleMonotone(p: real, q: real, len: real)
    requires p <= q && 0.0 <= len
    ensures p * len <= q * len
  {
  }

  lemma DivMonotone(a: real, b: real, d: real)
    requires a <= b && 0.0 < d
    ensures a / d <= b / d
  {
    assert b / d - a / d == (b - a) / d;
  }

  /** The exact offset of `value`: its share of the domain times the travel. */
  function ExactPosition(t: Track, value: real): real
    requires t.min < t.max
  {
    var percentage := (value - t.min) / (t.max - t.min);
    percentage * t.limit as real
  }

  /** `getPositionFromValue`: the offset of `value`, rounded to a whole pixel. */
  function PositionFromValue(t: Track, value: real): int
    requires t.min < t.max
  {
    Round(ExactPosition(t, value))
  }

  /** The two ends of the domain land exactly on the two ends of the travel. */
  lemma PositionFromValueEnds(t: Track)
    requires t.min < t.max
    ensures PositionFromValue(t, t.min) == 0
    ensures PositionFromValue(t, t.max) == t.limit
  {
    assert (t.min - t.min) / (t.max - t.min) == 0.0;
    assert (t.max - t.min) / (t.max - t.min) == 1.0;
    RoundOfInteger(0);
    RoundOfInteger(t.limit);
  }

  /** A value inside the domain lands inside the travel. */
  lemma PositionFromValueWithin(t: Track, value: real)
    requires t.min < t.max && 0 <= t.limit
    requires t.min <= value <= t.max
    ensures 0 <= PositionFromValue(t, value) <= t.limit
  {
    var percentage := (value - t.min) / (t.max - t.min);
    DivMonotone(value - t.min, t.max - t.min, t.max - t.min);
    DivMonotone(0.0, value - t.min, t.max - t.min);
    assert (t.max - t.min) / (t.max - t.min) == 1.0;
    ScaleWithin(percentage, t.limit as real);
    assert ExactPosition(t, value) == percentage * t.limit as real;
    RoundMonotone(0.0, ExactPosition(t, value));
    RoundMonotone(ExactPosition(t, value), t.limit as real);
    RoundOfInteger(0);
    RoundOfInteger(t.limit);
  }

  /** A larger value never lands to the left of a smaller one. */
  lemma PositionFromValueMonotone(t: Track, a: real, b: real)
    requires t.min < t.max && 0 <= t.limit
    requires a <= b
    ensures PositionFromValue(t, a) <= PositionFromValue(t, b)
  {
    DivMonotone(a - t.min, b - t.min, t.max - t.min);
    ScaleMonotone((a - t.min) / (t.max - t.min), (b - t.min) / (t.max - t.min), t.limit as real);
    RoundMonotone(ExactPosition(t, a), ExactPosition(t, b));
  }

  /** A clamped offset divided by a non-zero limit is a share in [0, 1]. */
  lemma ShareWithin(covered: real, len: real)
    requires len != 0.0
    requires covered == Clamp(covered, 0.0, len)
    ensures 0.0 <= covered / len <= 1.0
  {
    if len < 0.0 {
      assert covered == len;
      assert covered / len == 1.0;
    } else {
      DivMonotone(covered, len, len);
      DivMonotone(0.0, covered, len);
    }
  }

  /** `clamp(pos, 0, limit) / (limit || 1)`: the share of the travel covered by `pos`. */
  function Percentage(t: Track, pos: real): (p: real)
    ensures 0.0 <= p <= 1.0
    ensures t.limit == 0 ==> p == 0.0
  {
    var covered := Clamp(pos, 0.0, t.limit as real);
    if t.limit == 0 then covered / 1.0
    else
      ShareWithin(covered, t.limit as real);
      covered / t.limit as real
  }

  /** `percentage * (max - min) / step`: how many steps the share of the domain spans. */
  function StepsSpanned(t: Track, percentage: real): real
    requires 0.0 < t.step
  {
    percentage * (t.max - t.min) / t.step
  }

  /** The whole number of steps `Math.round(percentage * (max - min) / step)`. */
  function Steps(t: Track, percentage: real): int
    requires 0.0 < t.step
  {
    Round(StepsSpanned(t, percentage))
  }

  /** The value `k` whole steps into the domain: up from `min`, or down from `max` when vertical. */
  function Quantised(t: Track, k: int): real
  {
    if t.orientation == Horizontal then t.step * k as real + t.min else t.max - t.step * k as real
  }

  /**
   * `getValueFromPosition`: the quantised domain value under offset `pos`, counted
   * up from `min` on a horizontal slider and down from `max` on a vertical one, then
   * clamped to the domain.
   */
  function ValueFromPosition(t: Track, pos: real): (v: real)
    requires 0.0 < t.step
    ensures t.min <= t.max ==> t.min <= v <= t.max
  {
    Clamp(Quantised(t, Steps(t, Percentage(t, pos))), t.min, t.max)
  }

  /** `x` differs from `anchor` by a whole number of steps. */
  predicate OnGrid(x: real, anchor: real, step: real)
    requires 0.0 < step
  {
    ((x - anchor) / step).Floor as real == (x - anchor) / step
  }

  lemma StepsNonNegative(t: Track, p: real)
    requires 0.0 < t.step && t.min <= t.max && 0.0 <= p
    ensures 0 <= Steps(t, p)
  {
    assert 0.0 <= p * (t.max - t.min);
    DivMonotone(0.0, p * (t.max - t.min), t.step);
    RoundMonotone(0.0, StepsSpanned(t, p));
    RoundOfInteger(0);
  }

  lemma MulDivCancel(step: real, k: int)
    requires 0.0 < step
    ensures step * k as real / step == k as real
  {
  }

  lemma QuantisedOnGrid(t: Track, k: int)
    requires 0.0 < t.step
    ensures t.orientation == Horizontal ==> OnGrid(Quantised(t, k), t.min, t.step)
    ensures t.orientation == Vertical ==> OnGrid(Quantised(t, k), t.max, t.step)
  {
    var d := t.step * k as real;
    MulDivCancel(t.step, k);
    if t.orientation == Horizontal {
      assert Quantised(t, k) - t.min == d;
    } else {
      assert Quantised(t, k) - t.max == -d;
      assert -d / t.step == -(d / t.step);
      assert (Quantised(t, k) - t.max) / t.step == (-k) as real;
    }
  }

  /**
   * Quantisation: the value is a whole number of steps away from `min` (horizontal) or
   * from `max` (vertical), unless the final clamp cut it to the opposite bound.
   */
  lemma ValueFromPositionOnGrid(t: Track, pos: real)
    requires 0.0 < t.step && t.min <= t.max
    ensures t.orientation == Horizontal ==>
      OnGrid(ValueFromPosition(t, pos), t.min, t.step) || ValueFromPosition(t, pos) == t.max
    ensures t.orientation == Vertical ==>
      OnGrid(ValueFromPosition(t, pos), t.max, t.step) || ValueFromPosition(t, pos) == t.min
  {
    var k := Steps(t, Percentage(t, pos));
    StepsNonNegative(t, Percentage(t, pos));
    assert 0.0 <= t.step * k as real;
    QuantisedOnGrid(t, k);
  }

  /** An empty travel (`limit == 0`) divides by 1 and reports the start of the domain. */
  lemma ValueFromPositionDegenerate(t: Track, pos: real)
    requires 0.0 < t.step && t.min <= t.max && t.limit == 0
    ensures ValueFromPosition(t, pos) == if t.orientation == Horizontal then t.min else t.max
  {
    StepsAtZero(t);
  }

  /** An offset before the track reads as the start of the domain. */
  lemma ValueFromPositionBeforeTrack(t: Track, pos: real)
    requires 0.0 < t.step && t.min <= t.max && 0 <= t.limit
    requires pos <= 0.0
    ensures ValueFromPosition(t, pos) == if t.orientation == Horizontal then t.min else t.max
  {
    assert Percentage(t, pos) == 0.0;
    StepsAtZero(t);
  }

  lemma StepsAtZero(t: Track)
    requires 0.0 < t.step
    ensures Steps(t, 0.0) == 0
  {
    assert StepsSpanned(t, 0.0) == 0.0;
    RoundOfInteger(0);
  }

  /** At the end of the travel the steps cover the domain exactly when it is a whole number of steps long. */
  lemma StepsAtEnd(t: Track)
    requires 0.0 < t.step && t.min <= t.max
    requires OnGrid(t.max, t.min, t.step)
    ensures t.step * Steps(t, 1.0) as real == t.max - t.min
  {
    var n := ((t.max - t.min) / t.step).Floor;
    assert StepsSpanned(t, 1.0) == n as real;
    RoundOfInteger(n);
  }

  /**
   * An offset past the track reads as the end of the travel; that is the far bound of
   * the domain exactly when the domain is a whole number of steps long.
   */
  lemma ValueFromPositionPastTrack(t: Track, pos: real)
    requires 0.0 < t.step && t.min <= t.max && 0 < t.limit
    requires t.limit as real <= pos
    ensures ValueFromPosition(t, pos) == ValueFromPosition(t, t.limit as real)
    ensures OnGrid(t.max, t.min, t.step) ==>
      ValueFromPosition(t, pos) == if t.orientation == Horizontal then t.max else t.min
  {
    assert Percentage(t, pos) == 1.0 == Percentage(t, t.limit as real);
    if OnGrid(t.max, t.min, t.step) {
      StepsAtEnd(t);
    }
  }

  lemma QuantisedMonotone(t: Track, j: int, k: int)
    requires 0.0 < t.step && j <= k
    ensures t.orientation == Horizontal ==> Quantised(t, j) <= Quantised(t, k)
    ensures t.orientation == Vertical ==> Quantised(t, j) >= Quantised(t, k)
  {
    assert t.step * j as real <= t.step * k as real;
  }

  lemma PercentageMonotone(t: Track, a: real, b: real)
    requires 0 <= t.limit && a <= b
    ensures Percentage(t, a) <= Percentage(t, b)
  {
    ClampMonotone(a, b, 0.0, t.limit as real);
    if 0 < t.limit {
      DivMonotone(Clamp(a, 0.0, t.limit as real), Clamp(b, 0.0, t.limit as real), t.limit as real);
    }
  }

  lemma StepsMonotone(t: Track, p: real, q: real)
    requires 0.0 < t.step && t.min <= t.max && p <= q
    ensures Steps(t, p) <= Steps(t, q)
  {
    ScaleMonotone(p, q, t.max - t.min);
    DivMonotone(p * (t.max - t.min), q * (t.max - t.min), t.step);
    RoundMonotone(StepsSpanned(t, p), StepsSpanned(t, q));
  }

  /**
   * For fixed props, a larger offset never gives a smaller value on a horizontal
   * slider, nor a larger one on a vertical slider.
   */
  lemma ValueFromPositionMonotone(t: Track, a: real, b: real)
    requires 0.0 < t.step && t.min <= t.max && 0 <= t.limit
    requires a <= b
    ensures t.orientation == Horizontal ==> ValueFromPosition(t, a) <= ValueFromPosition(t, b)
    ensures t.orientation == Vertical ==> ValueFromPosition(t, a) >= ValueFromPosition(t, b)
  {
    PercentageMonotone(t, a, b);
    var ka, kb := Steps(t, Percentage(t, a)), Steps(t, Percentage(t, b));
    StepsMonotone(t, Percentage(t, a), Percentage(t, b));
    QuantisedMonotone(t, ka, kb);
    if t.orientation == Horizontal {
      ClampMonotone(Quantised(t, ka), Quantised(t, kb), t.min, t.max);
    } else {
      ClampMonotone(Quantised(t, kb), Quantised(t, ka), t.min, t.max);
    }
  }

  function Abs(x: real): real
  {
    if x < 0.0 then -x else x
  }

  /** A pixel error of at most one half, scaled from the travel to the domain. */
  lemma PixelErrorScaled(pixel: real, offset: real, len: real, span: real)
    requires 0.0 < len && 0.0 < span
    requires Abs(pixel - offset / span * len) <= 0.5
    ensures Abs(pixel / len * span - offset) <= span / (2.0 * len)
  {
    var r := span / len;
    var e := pixel - offset / span * len;
    assert offset / span * len * r == offset;
    assert pixel / len * span == pixel * r;
    assert pixel / len * span - offset == e * r;
    assert Abs(e * r) == Abs(e) * r;
    assert Abs(e) * r <= 0.5 * r;
  }

  /** Rounding to a whole number of steps moves a value by at most half a step. */
  lemma StepErrorScaled(t: Track, p: real)
    requires 0.0 < t.step
    ensures Abs(t.step * Steps(t, p) as real - DomainShare(t, p)) <= t.step / 2.0
  {
    var s := StepsSpanned(t, p);
    var k := Steps(t, p);
    var e := k as real - s;
    var d := t.step * k as real - DomainShare(t, p);
    assert -0.5 <= e <= 0.5;
    assert t.step * s == DomainShare(t, p);
    assert d == t.step * e;
    assert -(t.step * 0.5) <= t.step * e <= t.step * 0.5;
    assert t.step * 0.5 == t.step / 2.0;
    assert Abs(d) <= t.step / 2.0;
  }

  /** The part of the domain, from `min`, that a share of the travel stands for. */
  function DomainShare(t: Track, share: real): real
  {
    share * (t.max - t.min)
  }

  /** The part of the domain that half a pixel of travel stands for. */
  function HalfPixelSpan(t: Track): real
    requires 0 < t.limit
  {
    (t.max - t.min) / (2.0 * t.limit as real)
  }

  /** The pixel of `v`, read back as a share of the travel, is within half a pixel of `v`'s share. */
  lemma PixelStage(t: Track, v: real)
    requires t.min < t.max && 0.0 < t.step && 0 < t.limit
    requires t.min <= v <= t.max
    ensures var pct := Percentage(t, PositionFromValue(t, v) as real);
      Abs(DomainShare(t, pct) - (v - t.min)) <= HalfPixelSpan(t)
  {
    var span, len := t.max - t.min, t.limit as real;
    var pixel := PositionFromValue(t, v);
    PositionFromValueWithin(t, v);
    assert ExactPosition(t, v) == (v - t.min) / span * len;
    assert Abs(pixel as real - (v - t.min) / span * len) <= 0.5;
    assert Percentage(t, pixel as real) == pixel as real / len;
    PixelErrorScaled(pixel as real, v - t.min, len, span);
    assert DomainShare(t, pixel as real / len) == pixel as real / len * span;
  }

  /** Clamping into a domain that holds `target` never moves a value away from it. */
  lemma ClampCloser(raw: real, target: real, lo: real, hi: real)
    requires lo <= target <= hi
    ensures Abs(Clamp(raw, lo, hi) - target) <= Abs(raw - target)
  {
  }

  /**
   * Round trip value -> pixel -> value: the value read back from the pixel of `v` is
   * within half a step plus half a pixel's worth of domain of `v` on a horizontal
   * slider, and of its mirror image `max + min - v` on a vertical one (the pixel scale
   * runs from `min`, the vertical reading from `max`).
   */
  lemma RoundTripWithinQuantum(t: Track, v: real)
    requires t.min < t.max && 0.0 < t.step && 0 < t.limit
    requires t.min <= v <= t.max
    ensures var back := ValueFromPosition(t, PositionFromValue(t, v) as real);
      var target := if t.orientation == Horizontal then v else t.max + t.min - v;
      Abs(back - target) <= t.step / 2.0 + HalfPixelSpan(t)
  {
    var pct := Percentage(t, PositionFromValue(t, v) as real);
    var k := Steps(t, pct);
    ReadBackError(t, v, pct, k);
    ClampedNear(t, v, k);
  }

  /** The whole steps read back from the pixel of `v` span `v - min` up to the tolerance. */
  lemma ReadBackError(t: Track, v: real, pct: real, k: int)
    requires t.min < t.max && 0.0 < t.step && 0 < t.limit
    requires t.min <= v <= t.max
    requires pct == Percentage(t, PositionFromValue(t, v) as real) && k == Steps(t, pct)
    ensures Abs(t.step * k as real - (v - t.min)) <= t.step / 2.0 + HalfPixelSpan(t)
  {
    PixelStage(t, v);
    StepErrorScaled(t, pct);
    Triangle(t.step * k as real, DomainShare(t, pct), v - t.min, t.step / 2.0, HalfPixelSpan(t));
  }

  /** Turning `k` steps into a clamped value keeps it within the same tolerance of the target. */
  lemma ClampedNear(t: Track, v: real, k: int)
    requires t.min < t.max && 0.0 < t.step && 0 < t.limit
    requires t.min <= v <= t.max
    requires Abs(t.step * k as real - (v - t.min)) <= t.step / 2.0 + HalfPixelSpan(t)
    ensures var target := if t.orientation == Horizontal then v else t.max + t.min - v;
      Abs(Clamp(Quantised(t, k), t.min, t.max) - target) <= t.step / 2.0 + HalfPixelSpan(t)
  {
    var target := if t.orientation == Horizontal then v else t.max + t.min - v;
    QuantisedDistance(t, k, v);
    ClampCloser(Quantised(t, k), target, t.min, t.max);
  }

  /** `k` steps into the domain lies as far from `v` (horizontal) or its mirror (vertical) as `k` steps lie from `v - min`. */
  lemma QuantisedDistance(t: Track, k: int, v: real)
    ensures var target := if t.orientation == Horizontal then v else t.max + t.min - v;
      Abs(Quantised(t, k) - target) == Abs(t.step * k as real - (v - t.min))
  {
  }

  lemma Triangle(a: real, b: real, c: real, e: real, f: real)
    requires Abs(a - b) <= e && Abs(b - c) <= f
    ensures Abs(a - c) <= e + f && Abs(c - a) <= e + f
  {
  }

  /** The fill length and the handle and label offsets `coordinates` returns. */
  datatype Coords = Coords(fillPos: real, handlePos: real, labelPos: real)

  /**
   * `coordinates`: the fill, handle and label offsets for `pos`. They are taken from
   * the pixel of the quantised, clamped value under `pos`, never from `pos` itself;
   * a horizontal handle is shifted by `grab`, and the fill is the handle offset only on
   * a horizontal slider that is not reversed, the rest of the travel otherwise.
   */
  function Coordinates(t: Track, pos: real): (c: Coords)
    requires t.min < t.max && 0.0 < t.step
    ensures c.labelPos == c.handlePos
    ensures t.orientation == Horizontal && !t.reverse ==> c.fillPos == c.handlePos
    ensures !(t.orientation == Horizontal && !t.reverse) ==> c.fillPos + c.handlePos == t.limit as real
  {
    var value := ValueFromPosition(t, pos);
    var position := PositionFromValue(t, value);
    var handlePos := if t.orientation == Horizontal then position as real + t.grab else position as real;
    var fillPos := if t.orientation == Horizontal && !t.reverse then handlePos else t.limit as real - handlePos;
    Coords(fillPos, handlePos, handlePos)
  }

  /** How far the handle offset is shifted past the pixel of its value: `grab` when horizontal. */
  function HandleShift(t: Track): real
  {
    if t.orientation == Horizontal then t.grab else 0.0
  }

  /**
   * The handle never leaves the travel: less its shift it lies in [0, limit], and the
   * fill of a vertical slider lies in [0, limit] too.
   */
  lemma CoordinatesWithin(t: Track, pos: real)
    requires t.min < t.max && 0.0 < t.step && 0 <= t.limit
    ensures 0.0 <= Coordinates(t, pos).handlePos - HandleShift(t) <= t.limit as real
    ensures t.orientation == Vertical ==> 0.0 <= Coordinates(t, pos).fillPos <= t.limit as real
  {
    PositionFromValueWithin(t, ValueFromPosition(t, pos));
  }

  /**
   * Rendering places the handle at `coordinates(getPositionFromValue(value))`, an offset
   * from the start edge (left or top, right or bottom when reversed). A larger value
   * moves the handle away from the start edge of a horizontal slider and towards the
   * start edge of a vertical one; the fill grows with the value except on a reversed
   * horizontal slider, where it is the complement of the handle offset and shrinks.
   */
  lemma {:induction false} HandleTracksValue(t: Track, a: real, b: real)
    requires t.min < t.max && 0.0 < t.step && 0 <= t.limit
    requires a <= b
    ensures var ca, cb := Coordinates(t, PositionFromValue(t, a) as real), Coordinates(t, PositionFromValue(t, b) as real);
      (t.orientation == Horizontal ==> ca.handlePos <= cb.handlePos) &&
      (t.orientation == Vertical ==> ca.handlePos >= cb.handlePos) &&
      (t.orientation == Vertical || !t.reverse ==> ca.fillPos <= cb.fillPos) &&
      (t.orientation == Horizontal && t.reverse ==> ca.fillPos >= cb.fillPos)
  {
    var pa, pb := PositionFromValue(t, a) as real, PositionFromValue(t, b) as real;
    PositionFromValueMonotone(t, a, b);
    ValueFromPositionMonotone(t, pa, pb);
    var va, vb := ValueFromPosition(t, pa), ValueFromPosition(t, pb);
    if t.orientation == Horizontal {
      PositionFromValueMonotone(t, va, vb);
    } else {
      PositionFromValueMonotone(t, vb, va);
    }
  }

  /** The edge offsets are measured from: left or top, right or bottom when reversed. */
  function StartEdge(r: Rect, o: Orientation, reverse: bool): real
  {
    match o
    case Horizontal => if reverse then r.right else r.left
    case Vertical => if reverse then r.bottom else r.top
  }

  /**
   * The arithmetic in `position`: the pointer's distance from the start edge, measured
   * in the direction of travel (towards the start edge when reversed), less `grab`.
   */
  function PointerOffset(t: Track, coordinate: real, edge: real): (pos: real)
    ensures t.reverse ==> pos + t.grab == edge - coordinate
    ensures !t.reverse ==> pos + t.grab == coordinate - edge
  {
    if t.reverse then edge - coordinate - t.grab else coordinate - edge - t.grab
  }

  /**
   * Dragging the pointer towards larger client coordinates raises the value on a
   * horizontal slider and on a reversed vertical one, and lowers it on a reversed
   * horizontal slider and on a vertical one (screen y grows downwards).
   */
  lemma {:induction false} DragDirection(t: Track, edge: real, c1: real, c2: real)
    requires t.min <= t.max && 0.0 < t.step && 0 <= t.limit
    requires c1 <= c2
    ensures var v1, v2 := ValueFromPosition(t, PointerOffset(t, c1, edge)), ValueFromPosition(t, PointerOffset(t, c2, edge));
      ((t.orientation == Horizontal) == !t.reverse ==> v1 <= v2) &&
      ((t.orientation == Horizontal) == t.reverse ==> v1 >= v2)
  {
    var p1, p2 := PointerOffset(t, c1, edge), PointerOffset(t, c2, edge);
    if t.reverse {
      ValueFromPositionMonotone(t, p2, p1);
    } else {
      ValueFromPositionMonotone(t, p1, p2);
    }
  }
}
