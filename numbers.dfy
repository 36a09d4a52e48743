/**
 * Kotlin's integer and floating-point helpers as the overlay uses them:
 * `coerceIn`, `abs` and `toInt()`. Floating-point values are modelled as
 * exact reals.
 */
module Numbers {

  /** Kotlin's `x.coerceIn(lo, hi)` on integers. */
  function Clamp(x: int, lo: int, hi: int): (r: int)
    requires lo <= hi
    ensures lo <= r <= hi
    ensures lo <= x <= hi ==> r == x
    ensures x < lo ==> r == lo
    ensures hi < x ==> r == hi
  {
    if x < lo then lo else if hi < x then hi else x
  }

  /** Kotlin's `p.coerceIn(0f, 1f)`. */
  function Clamp01(p: real): (r: real)
    ensures 0.0 <= r <= 1.0
    ensures 0.0 <= p <= 1.0 ==> r == p
    ensures p < 0.0 ==> r == 0.0
    ensures 1.0 < p ==> r == 1.0
  {
    if p < 0.0 then 0.0 else if 1.0 < p then 1.0 else p
  }

  function Abs(x: int): (r: nat)
    ensures r == x || r == -x
  {
    if x < 0 then -x else x
  }

  /** Kotlin's `toInt()` on a floating value: truncation toward zero. */
  function ToInt(x: real): (r: int)
    ensures 0.0 <= x ==> r as real <= x < r as real + 1.0
    ensures x < 0.0 ==> r as real - 1.0 < x <= r as real
  {
    if 0.0 <= x then x.Floor else -((-x).Floor)
  }

  /**
   * Once the result is coerced into [0, hi], truncating toward zero and
   * flooring agree: the two differ only on negative non-integral values,
   * which both clamp to 0.
   */
  lemma ClampedTruncationIsFloor(x: real, hi: int)
    requires 0 <= hi
    ensures Clamp(ToInt(x), 0, hi) == Clamp(x.Floor, 0, hi)
  {
    if x < 0.0 {
      assert ToInt(x) <= 0;
      assert x.Floor < 0;
    }
  }
}
