/**
 * Normalisation of raw XInput readings (main.py, `clamp`, `norm_thumb`,
 * `norm_trigger`, `apply_curve`). Python floats are modelled as `real`:
 * each normaliser performs a single division, which rationals represent exactly.
 */
module Normalize {

  /** A thumb-stick axis as XInput reports it (`c_short`). */
  type Int16 = x: int | -32768 <= x <= 32767

  /** A trigger as XInput reports it (`c_ubyte`). */
  type UInt8 = x: int | 0 <= x <= 255

  /** The largest positive stick reading, the full-scale value of `norm_thumb`. */
  const ThumbMax: int := 32767

  /** The largest trigger reading, the full-scale value of `norm_trigger`. */
  const TriggerMax: int := 255

  function Abs(x: int): nat {
    if x < 0 then -x else x
  }

  function RealAbs(x: real): real {
    if x < 0.0 then -x else x
  }

  /** `clamp(v, lo, hi)`, which the source writes as `max(lo, min(hi, v))`. */
  function Clamp(v: real, lo: real, hi: real): (r: real)
    ensures lo <= hi ==> lo <= r <= hi
    ensures lo <= v <= hi ==> r == v
    ensures v <= lo ==> r == lo
    ensures lo <= hi <= v ==> r == hi
  {
    var m := if hi <= v then hi else v;
    if lo <= m then m else lo
  }

  lemma {:induction false} ClampMonotone(v1: real, v2: real, lo: real, hi: real)
    requires v1 <= v2
    ensures Clamp(v1, lo, hi) <= Clamp(v2, lo, hi)
  {
  }

  /**
   * `norm_thumb` divides by `32767 - deadzone` once `|v| > deadzone`; this is
   * zero only when the deadzone is exactly 32767 and the reading is -32768,
   * where Python raises ZeroDivisionError.
   */
  predicate ThumbDefined(v: Int16, deadzone: int) {
    !(deadzone == ThumbMax && v == -32768)
  }

  /**
   * `norm_thumb(v, deadzone)`: zero inside the deadzone, otherwise the distance
   * beyond the deadzone as a fraction of the remaining range, with the sign of
   * the reading, clamped to [-1, 1].
   */
  function NormThumb(v: Int16, deadzone: int): (r: real)
    requires ThumbDefined(v, deadzone)
    ensures Abs(v) <= deadzone ==> r == 0.0
    ensures Abs(v) > deadzone && v >= 0 ==> 0.0 < r <= 1.0
    ensures Abs(v) > deadzone && v < 0 ==> -1.0 <= r < 0.0
    ensures v == ThumbMax && deadzone < ThumbMax ==> r == 1.0
    ensures v == -32768 && deadzone < ThumbMax ==> r == -1.0
  {
    if Abs(v) <= deadzone then 0.0
    else
      var mag := (Abs(v) - deadzone) as real / (ThumbMax - deadzone) as real;
      Clamp(if v >= 0 then mag else -mag, -1.0, 1.0)
  }

  /** Opposite readings give opposite results (0 is left out: it counts as positive). */
  lemma {:induction false} NormThumbOdd(v: Int16, deadzone: int)
    requires 0 < v
    ensures ThumbDefined(v, deadzone) && ThumbDefined(-v, deadzone)
    ensures NormThumb(-v, deadzone) == -NormThumb(v, deadzone)
  {
  }

  /** Pushing a stick further never makes its normalised value smaller. */
  lemma {:induction false} NormThumbMonotone(v1: Int16, v2: Int16, deadzone: int)
    requires 0 <= v1 <= v2
    ensures NormThumb(v1, deadzone) <= NormThumb(v2, deadzone)
  {
    if Abs(v1) > deadzone {
      var b := (ThumbMax - deadzone) as real;
      assert b > 0.0;
      var a1 := (v1 - deadzone) as real;
      var a2 := (v2 - deadzone) as real;
      assert a1 / b <= a2 / b by {
        assert a1 <= a2;
        assert a2 / b - a1 / b == (a2 - a1) / b;
      }
      ClampMonotone(a1 / b, a2 / b, -1.0, 1.0);
    }
  }

  /** Readings on the negative side: further out never gives a larger value. */
  lemma {:induction false} NormThumbMonotoneNegative(v1: Int16, v2: Int16, deadzone: int)
    requires v2 <= v1 < 0
    requires ThumbDefined(v2, deadzone)
    ensures NormThumb(v2, deadzone) <= NormThumb(v1, deadzone)
  {
    if v2 == -32768 {
      // -32768 maps to -1 whenever it is outside the deadzone.
    } else {
      NormThumbOdd(-v1, deadzone);
      NormThumbOdd(-v2, deadzone);
      NormThumbMonotone(-v1, -v2, deadzone);
    }
  }

  /**
   * `norm_trigger(v, threshold)`: zero up to the threshold, otherwise the
   * distance beyond it as a fraction of the remaining range. No precondition:
   * `v > threshold` with `v <= 255` implies `threshold < 255`, so the divisor
   * is never zero.
   */
  function NormTrigger(v: UInt8, threshold: int): (r: real)
    ensures v <= threshold ==> r == 0.0
    ensures v > threshold ==> 0.0 < r <= 1.0
    ensures v == TriggerMax && threshold < TriggerMax ==> r == 1.0
  {
    if v <= threshold then 0.0
    else
      var mag := (v - threshold) as real / (TriggerMax - threshold) as real;
      Clamp(mag, 0.0, 1.0)
  }

  /** Pulling a trigger further never makes its normalised value smaller. */
  lemma {:induction false} NormTriggerMonotone(v1: UInt8, v2: UInt8, threshold: int)
    requires v1 <= v2
    ensures NormTrigger(v1, threshold) <= NormTrigger(v2, threshold)
  {
    if v1 > threshold {
      var b := (TriggerMax - threshold) as real;
      assert b > 0.0;
      var a1 := (v1 - threshold) as real;
      var a2 := (v2 - threshold) as real;
      assert a1 / b <= a2 / b by {
        assert a2 / b - a1 / b == (a2 - a1) / b;
      }
      ClampMonotone(a1 / b, a2 / b, 0.0, 1.0);
    }
  }

  /**
   * `x ** y` as the host computes it on floats. Dafny's reals have no
   * power with a real exponent, so the curve takes it as a parameter.
   */
  type Power = (real, real) -> real

  /**
   * `abs(v) ** gamma` is defined: Python raises ZeroDivisionError for
   * `0.0 ** gamma` with a negative exponent; a positive base never raises.
   */
  predicate CurveDefined(v: real, gamma: real) {
    !(v == 0.0 && gamma < 0.0)
  }

  /** `apply_curve(v, gamma)`: the sign of `v` (1 for 0) times `|v| ** gamma`. */
  function ApplyCurve(v: real, gamma: real, pow: Power): (r: real)
    requires CurveDefined(v, gamma)
    ensures pow(RealAbs(v), gamma) == RealAbs(v) ==> r == v
    ensures pow(RealAbs(v), gamma) > 0.0 ==> (r > 0.0 <==> v >= 0.0) && (r < 0.0 <==> v < 0.0)
    ensures RealAbs(r) == RealAbs(pow(RealAbs(v), gamma))
  {
    if v >= 0.0 then pow(RealAbs(v), gamma) else -pow(RealAbs(v), gamma)
  }

  /** A power function that is the identity at exponent 1, as float `**` is. */
  ghost predicate IdentityAtOne(pow: Power) {
    forall x: real :: 0.0 <= x ==> pow(x, 1.0) == x
  }

  /** With gamma = 1 the curve is linear: the value passes through unchanged. */
  lemma {:induction false} ApplyCurveLinear(v: real, pow: Power)
    requires IdentityAtOne(pow)
    ensures ApplyCurve(v, 1.0, pow) == v
  {
    assert pow(RealAbs(v), 1.0) == RealAbs(v);
  }

  /** Examples of the stick normaliser with the default left deadzone 7849. */
  lemma StickScenario()
    ensures NormThumb(32767, 7849) == 1.0
    ensures NormThumb(5000, 7849) == 0.0
    ensures NormThumb(-20000, 7849) == -(12151.0 / 24918.0)
  {
  }

  /** Examples of the trigger normaliser with the default threshold 30. */
  lemma TriggerScenario()
    ensures NormTrigger(255, 30) == 1.0
    ensures NormTrigger(30, 30) == 0.0
    ensures NormTrigger(31, 30) == 1.0 / 225.0
  {
  }
}
