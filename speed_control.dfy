/** The teleprompter's speed controller: a scroll speed in pixels per second,
    kept integral and inside [SpeedMin, SpeedMax] by rounding and clamping.

    JavaScript numbers are modelled as `JsNumber`: a mathematical real, the two
    infinities, or NaN. IEEE rounding of finite values is not modelled. */
module SpeedControl {

  const SpeedMin: int := 10
  const SpeedMax: int := 100
  const SpeedStep: int := 10

  /** A JavaScript number, without finite-precision effects. */
  datatype JsNumber = Finite(value: real) | PosInfinity | NegInfinity | NaN

  predicate IsIntegral(x: real) {
    x.Floor as real == x
  }

  /** The ordering `a <= b` of two numbers that are not NaN. */
  predicate LessEq(a: JsNumber, b: JsNumber)
    requires !a.NaN? && !b.NaN?
  {
    a.NegInfinity? || b.PosInfinity? || (a.Finite? && b.Finite? && a.value <= b.value)
  }

  /** `Math.min(a, b)`: NaN if either argument is NaN, otherwise the smaller one. */
  function Min(a: JsNumber, b: JsNumber): (r: JsNumber)
    ensures r.NaN? <==> a.NaN? || b.NaN?
    ensures !r.NaN? ==> (r == a || r == b) && LessEq(r, a) && LessEq(r, b)
  {
    if a.NaN? || b.NaN? then NaN else if LessEq(a, b) then a else b
  }

  /** `Math.max(a, b)`: NaN if either argument is NaN, otherwise the larger one. */
  function Max(a: JsNumber, b: JsNumber): (r: JsNumber)
    ensures r.NaN? <==> a.NaN? || b.NaN?
    ensures !r.NaN? ==> (r == a || r == b) && LessEq(a, r) && LessEq(b, r)
  {
    if a.NaN? || b.NaN? then NaN else if LessEq(a, b) then b else a
  }

  /** `Math.round(x)`: the nearest integer, halves going towards +Infinity;
      infinities and NaN are returned as they are. */
  function Round(x: JsNumber): (r: JsNumber)
    ensures x.Finite? <==> r.Finite?
    ensures x.Finite? ==> IsIntegral(r.value) && x.value - 0.5 < r.value <= x.value + 0.5
    ensures !x.Finite? ==> r == x
  {
    match x
    case Finite(v) => Finite((v + 0.5).Floor as real)
    case _ => x
  }

  /** `clamp(v, min, max)` of the teleprompter page: `Math.max(min, Math.min(max, v))`.
      With finite bounds lo <= hi: NaN stays NaN, a value at or above hi (or
      +Infinity) becomes hi, one at or below lo (or -Infinity) becomes lo, and a
      value in between is returned as it is. */
  function Clamp(v: JsNumber, lo: JsNumber, hi: JsNumber): (r: JsNumber)
    ensures v.NaN? ==> r.NaN?
    ensures lo.Finite? && hi.Finite? && lo.value <= hi.value ==>
              ((v.PosInfinity? || (v.Finite? && v.value >= hi.value)) ==> r == hi) &&
              ((v.NegInfinity? || (v.Finite? && v.value <= lo.value)) ==> r == lo) &&
              (v.Finite? && lo.value <= v.value <= hi.value ==> r == v)
  {
    Max(lo, Min(hi, v))
  }

  /** The value `setSpeedClamped(v)` stores as the new speed. For every input that
      is not NaN this is an integer in [SpeedMin, SpeedMax]; NaN stays NaN. */
  function SetSpeedClamped(v: JsNumber): (r: JsNumber)
    ensures r.NaN? <==> v.NaN?
    ensures !v.NaN? ==> r.Finite? && IsIntegral(r.value)
    ensures !v.NaN? ==> SpeedMin as real <= r.value <= SpeedMax as real
    // a rounded input at or above the maximum is stored as the maximum, one at or
    // below the minimum as the minimum, and one in between as it is
    ensures var x := Round(v);
            ((x.PosInfinity? || (x.Finite? && x.value >= SpeedMax as real)) ==> r == Finite(SpeedMax as real)) &&
            ((x.NegInfinity? || (x.Finite? && x.value <= SpeedMin as real)) ==> r == Finite(SpeedMin as real)) &&
            (x.Finite? && SpeedMin as real <= x.value <= SpeedMax as real ==> r == x)
  {
    Clamp(Round(v), Finite(SpeedMin as real), Finite(SpeedMax as real))
  }

  /** The speed `setSpeedClamped` stores, as an integer; defined for all non-NaN inputs. */
  function ClampedSpeed(v: JsNumber): (s: int)
    requires !v.NaN?
    ensures SpeedMin <= s <= SpeedMax
    ensures Finite(s as real) == SetSpeedClamped(v)
  {
    SetSpeedClamped(v).value.Floor
  }

  /** `incSpeed()`: `setSpeedClamped(Number(speed) + SPEED_STEP)`. */
  function IncSpeed(speed: int): (r: int)
    ensures SpeedMin <= r <= SpeedMax
  {
    ClampedSpeed(Finite((speed + SpeedStep) as real))
  }

  /** `decSpeed()`: `setSpeedClamped(Number(speed) - SPEED_STEP)`. */
  function DecSpeed(speed: int): (r: int)
    ensures SpeedMin <= r <= SpeedMax
  {
    ClampedSpeed(Finite((speed - SpeedStep) as real))
  }

  /** Clamping a number that is not NaN lands inside the bounds. */
  lemma ClampWithin(v: JsNumber, lo: real, hi: real)
    requires !v.NaN? && lo <= hi
    ensures Clamp(v, Finite(lo), Finite(hi)).Finite?
    ensures lo <= Clamp(v, Finite(lo), Finite(hi)).value <= hi
  {
  }

  /** Values beyond a bound, infinities included, are sent to that bound. */
  lemma ClampOutside(v: JsNumber, lo: real, hi: real)
    requires lo <= hi
    ensures (v.PosInfinity? || (v.Finite? && v.value >= hi)) ==> Clamp(v, Finite(lo), Finite(hi)) == Finite(hi)
    ensures (v.NegInfinity? || (v.Finite? && v.value <= lo)) ==> Clamp(v, Finite(lo), Finite(hi)) == Finite(lo)
  {
  }

  /** A value already inside the bounds is left as it is. */
  lemma ClampFixesInside(v: real, lo: real, hi: real)
    requires lo <= v <= hi
    ensures Clamp(Finite(v), Finite(lo), Finite(hi)) == Finite(v)
  {
  }

  /** Clamping twice is clamping once (NaN included). */
  lemma ClampIdempotent(v: JsNumber, lo: real, hi: real)
    requires lo <= hi
    ensures Clamp(Clamp(v, Finite(lo), Finite(hi)), Finite(lo), Finite(hi)) == Clamp(v, Finite(lo), Finite(hi))
  {
  }

  /** `Math.round` sends a half towards +Infinity: -2.5 becomes -2 and 2.5 becomes 3. */
  lemma RoundHalfUp(n: int)
    ensures Round(Finite(n as real + 0.5)) == Finite((n + 1) as real)
  {
  }

  /** An integral speed already in range is stored unchanged. */
  lemma SetSpeedKeepsValidSpeed(s: int)
    requires SpeedMin <= s <= SpeedMax
    ensures ClampedSpeed(Finite(s as real)) == s
  {
  }

  /** Storing the stored speed again changes nothing: `setSpeedClamped` is idempotent. */
  lemma SetSpeedIdempotent(v: JsNumber)
    ensures SetSpeedClamped(SetSpeedClamped(v)) == SetSpeedClamped(v)
  {
    if !v.NaN? {
      SetSpeedKeepsValidSpeed(ClampedSpeed(v));
    }
  }

  /** The boundary cases: 150 is stored as 100, -5 as 10, and the infinities as the bounds. */
  lemma SetSpeedExamples()
    ensures ClampedSpeed(Finite(150.0)) == 100
    ensures ClampedSpeed(Finite(-5.0)) == 10
    ensures ClampedSpeed(Finite(54.5)) == 55
    ensures ClampedSpeed(PosInfinity) == 100
    ensures ClampedSpeed(NegInfinity) == 10
    ensures SetSpeedClamped(NaN) == NaN
  {
  }

  /** `incSpeed` at the maximum stays there; below it, it adds exactly one step. */
  lemma IncSpeedSteps(s: int)
    requires SpeedMin <= s <= SpeedMax
    ensures s == SpeedMax ==> IncSpeed(s) == SpeedMax
    ensures s <= SpeedMax - SpeedStep ==> IncSpeed(s) == s + SpeedStep
    ensures s > SpeedMax - SpeedStep ==> IncSpeed(s) == SpeedMax
    ensures s <= IncSpeed(s) <= s + SpeedStep
  {
  }

  /** `decSpeed` at the minimum stays there; above it, it subtracts exactly one step. */
  lemma DecSpeedSteps(s: int)
    requires SpeedMin <= s <= SpeedMax
    ensures s == SpeedMin ==> DecSpeed(s) == SpeedMin
    ensures s >= SpeedMin + SpeedStep ==> DecSpeed(s) == s - SpeedStep
    ensures s < SpeedMin + SpeedStep ==> DecSpeed(s) == SpeedMin
    ensures s - SpeedStep <= DecSpeed(s) <= s
  {
  }

  /** Away from the bounds, one decrement undoes one increment and vice versa. */
  lemma IncDecInverse(s: int)
    requires SpeedMin <= s <= SpeedMax
    ensures s <= SpeedMax - SpeedStep ==> DecSpeed(IncSpeed(s)) == s
    ensures s >= SpeedMin + SpeedStep ==> IncSpeed(DecSpeed(s)) == s
  {
  }
}
