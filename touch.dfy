/**
 * The touch arithmetic of the two overlay panels: the fixed layout metrics,
 * the menu-button and slider hit regions, the vertical position to fraction
 * to integer target mapping, and the fraction shown after reading the
 * platform level.
 */
module Touch {
  import opened Audio
  import opened Numbers

  const SliderWidth: real := 140.0
  const SliderGap: real := 20.0
  const MainHeight: real := 600.0
  const MenuGap: real := 30.0
  const MenuSize: real := 140.0

  datatype Action = Down | Move | Up | Cancel | OtherAction

  /** A pointer event in panel-local coordinates. */
  datatype MotionEvent = MotionEvent(action: Action, x: real, y: real)

  /** The primary panel's menu button: the band [630, 770], ends included. */
  predicate IsMenuButton(y: real) {
    MainHeight + MenuGap <= y <= MainHeight + MenuGap + MenuSize
  }

  /**
   * On the primary panel a down inside the menu band is the button, a down at
   * or above the slider's bottom edge starts a drag, and the gap between the
   * two claims nothing.
   */
  lemma PrimaryRegions(y: real)
    ensures IsMenuButton(y) ==> MainHeight < y
    ensures y <= MainHeight ==> !IsMenuButton(y)
    ensures MainHeight < y < MainHeight + MenuGap ==> !IsMenuButton(y)
    ensures IsMenuButton(y) <==> 630.0 <= y <= 770.0
  {
  }

  /** `clamp(1 - (y - top) / height, 0, 1)`: 1 at the top of the slider, 0 at its bottom. */
  function Fraction(y: real, top: real, height: real): (p: real)
    requires 0.0 < height
    ensures 0.0 <= p <= 1.0
    ensures y <= top ==> p == 1.0
    ensures top + height <= y ==> p == 0.0
  {
    Clamp01(1.0 - (y - top) / height)
  }

  /** Dragging down never raises the fraction. */
  lemma FractionNonIncreasing(y1: real, y2: real, top: real, height: real)
    requires 0.0 < height && y1 <= y2
    ensures Fraction(y2, top, height) <= Fraction(y1, top, height)
  {
    assert (y1 - top) / height <= (y2 - top) / height by {
      DivideMonotone(y1 - top, y2 - top, height);
    }
  }

  lemma DivideMonotone(u: real, v: real, h: real)
    requires 0.0 < h && u <= v
    ensures u / h <= v / h
  {
    assert v / h - u / h == (v - u) / h;
  }

  /** `(fraction * max).toInt().coerceIn(0, max)`. */
  function TargetLevel(fraction: real, max: int): (t: int)
    requires 0 <= max
    ensures 0 <= t <= max
  {
    Clamp(ToInt(fraction * max as real), 0, max)
  }

  /** For a fraction in [0, 1] the target is the floor of fraction * max (truncation, not rounding). */
  lemma TargetIsFloor(fraction: real, max: int)
    requires 0 <= max && 0.0 <= fraction <= 1.0
    ensures var t := TargetLevel(fraction, max);
      t == (fraction * max as real).Floor && t as real <= fraction * max as real < t as real + 1.0
  {
    var m := max as real;
    ScaleMonotone(0.0, fraction, m);
    ScaleMonotone(fraction, 1.0, m);
    assert 0.0 <= fraction * m <= m;
    assert (fraction * m).Floor <= max;
  }

  /**
   * Dragging down never asks for a higher level: the requested level is
   * monotone in the finger's height on the slider.
   */
  lemma DragDownNeverRaisesTarget(y1: real, y2: real, top: real, height: real, max: int)
    requires 0.0 < height && y1 <= y2 && 0 <= max
    ensures TargetLevel(Fraction(y2, top, height), max) <= TargetLevel(Fraction(y1, top, height), max)
  {
    FractionNonIncreasing(y1, y2, top, height);
    TargetLevelMonotone(Fraction(y2, top, height), Fraction(y1, top, height), max);
  }

  lemma TargetLevelMonotone(f2: real, f1: real, max: int)
    requires 0.0 <= f2 <= f1 <= 1.0 && 0 <= max
    ensures TargetLevel(f2, max) <= TargetLevel(f1, max)
  {
    ScaledFloorMonotone(f2, f1, max as real);
    assert TargetLevel(f1, max) == (f1 * max as real).Floor by {
      TargetIsFloor(f1, max);
    }
    assert TargetLevel(f2, max) == (f2 * max as real).Floor by {
      TargetIsFloor(f2, max);
    }
  }

  lemma ScaledFloorMonotone(a: real, b: real, m: real)
    requires a <= b && 0.0 <= m
    ensures (a * m).Floor <= (b * m).Floor
  {
    ScaleMonotone(a, b, m);
  }

  lemma ScaleMonotone(a: real, b: real, m: real)
    requires a <= b && 0.0 <= m
    ensures a * m <= b * m
  {
    assert b * m - a * m == (b - a) * m;
  }

  /** `if (max > 0) cur / max else 0`: the fraction shown after reading the platform. */
  function SyncedProgress(cur: int, max: int): (p: real)
    requires 0 <= cur <= max
    ensures 0.0 <= p <= 1.0
    ensures max == 0 ==> p == 0.0
  {
    if max > 0 then cur as real / max as real else 0.0
  }

  /**
   * The level -> fraction -> level mapping is the identity in exact
   * arithmetic: truncating the synced fraction times the maximum gives the
   * level back.
   */
  lemma SyncedProgressRoundTrip(cur: int, max: int)
    requires 0 <= cur <= max
    ensures TargetLevel(SyncedProgress(cur, max), max) == cur
  {
    if max > 0 {
      assert SyncedProgress(cur, max) * max as real == cur as real;
    }
  }

  /** An Android `RectF`; `contains` is half-open and false for an empty rectangle. */
  datatype Rect = Rect(left: real, top: real, right: real, bottom: real) {
    predicate Contains(x: real, y: real) {
      left < right && top < bottom && left <= x < right && top <= y < bottom
    }
    function Height(): real { bottom - top }
  }

  /** The secondary panel's sliders, from right to left. */
  const SliderOrder: seq<Stream> := [Ring, Notification, Alarm]

  /** The rectangle of the `i`-th slider from the right in a panel `width` wide. */
  function SliderRect(width: real, i: nat): (r: Rect)
    ensures r.top == 0.0 && r.bottom == MainHeight && r.Height() == MainHeight
    ensures r.right - r.left == SliderWidth
  {
    var right := width - (SliderWidth + SliderGap) * i as real;
    Rect(right - SliderWidth, 0.0, right, MainHeight)
  }

  /** The layout: RING at [w-140, w), NOTIFICATION at [w-300, w-160), ALARM at [w-460, w-320), each over y in [0, 600). */
  lemma SliderLayout(width: real, x: real, y: real)
    ensures SliderRect(width, 0).Contains(x, y) <==> width - 140.0 <= x < width && 0.0 <= y < 600.0
    ensures SliderRect(width, 1).Contains(x, y) <==> width - 300.0 <= x < width - 160.0 && 0.0 <= y < 600.0
    ensures SliderRect(width, 2).Contains(x, y) <==> width - 460.0 <= x < width - 320.0 && 0.0 <= y < 600.0
  {
  }

  /** No point lies in two sliders, so at most one slider can be hit. */
  lemma SlidersDisjoint(width: real, i: nat, j: nat, x: real, y: real)
    requires i < j
    ensures !(SliderRect(width, i).Contains(x, y) && SliderRect(width, j).Contains(x, y))
  {
    var ri, rj := SliderRect(width, i), SliderRect(width, j);
    assert rj.right <= ri.left by {
      assert ri.left - rj.right == (SliderWidth + SliderGap) * (j - i) as real - SliderWidth;
      assert (SliderWidth + SliderGap) * (j - i) as real >= SliderWidth + SliderGap;
    }
  }
}
