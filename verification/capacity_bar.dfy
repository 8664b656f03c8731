/**
 The occupancy bar of the location details page: the ratio `current_people / max_people` picks
 a colour (red from 0.9, yellow from 0.7, purple below) and the width `min(ratio * 100, 100)`
 percent. The JavaScript division is computed exactly; a zero divisor gives the infinities and
 NaN JavaScript gives.
 */
module CapacityBar {

  /** The value of a JavaScript number division of two integers. */
  datatype Quotient = Finite(value: real) | PosInfinity | NegInfinity | NotANumber

  function Divide(a: int, b: int): (q: Quotient)
    ensures b != 0 ==> q.Finite? && q.value * (b as real) == a as real
    ensures b == 0 ==> (q == PosInfinity <==> a > 0) && (q == NegInfinity <==> a < 0) && (q == NotANumber <==> a == 0)
  {
    if b != 0 then Finite(a as real / b as real)
    else if a > 0 then PosInfinity
    else if a < 0 then NegInfinity
    else NotANumber
  }

  datatype Colour = Red | Yellow | Purple

  /** Purple < Yellow < Red. */
  function Severity(c: Colour): nat {
    match c
    case Purple => 0
    case Yellow => 1
    case Red => 2
  }

  /** `ratio >= 0.9 ? red : ratio >= 0.7 ? yellow : purple`; every comparison with NaN is false. */
  function BarColour(current: int, max: int): Colour {
    match Divide(current, max)
    case Finite(x) => if x >= 0.9 then Red else if x >= 0.7 then Yellow else Purple
    case PosInfinity => Red
    case NegInfinity => Purple
    case NotANumber => Purple
  }

  /**
   `Math.min(ratio * 100, 100)`: the width never exceeds 100 percent, also over capacity, and
   below capacity it is the exact share of the maximum.
   */
  function BarWidth(current: int, max: int): (w: Quotient)
    ensures w != PosInfinity
    ensures w.Finite? ==> w.value <= 100.0
    ensures max > 0 && current >= max ==> w == Finite(100.0)
    ensures max > 0 && current <= max ==> w.Finite? && w.value * (max as real) == 100.0 * (current as real)
  {
    match Divide(current, max)
    case Finite(x) =>
      assert max > 0 ==> (x >= 1.0 <==> current >= max) && (x <= 1.0 <==> current <= max) by {
        if max > 0 {
          MulMonotone(x, 1.0, max as real);
          MulMonotone(1.0, x, max as real);
        }
      }
      if x * 100.0 <= 100.0 then Finite(x * 100.0) else Finite(100.0)
    case PosInfinity => Finite(100.0)
    case NegInfinity => NegInfinity
    case NotANumber => NotANumber
  }

  /**
   For a positive maximum the colour buckets are the integer thresholds `10*cur >= 9*max` and
   `10*cur >= 7*max`; together they are disjoint and cover every count.
   */
  lemma ColourThresholds(current: int, max: int)
    requires max > 0
    ensures BarColour(current, max) == Red <==> 10 * current >= 9 * max
    ensures BarColour(current, max) == Yellow <==> 7 * max <= 10 * current < 9 * max
    ensures BarColour(current, max) == Purple <==> 10 * current < 7 * max
  {
    AtLeastThreshold(current, max, 0.9, 9);
    AtLeastThreshold(current, max, 0.7, 7);
  }

  /** `current / max >= k` is the integer comparison `10 * current >= tenths * max` when `k` is `tenths / 10`. */
  lemma AtLeastThreshold(current: int, max: int, k: real, tenths: int)
    requires max > 0 && k * 10.0 == tenths as real
    ensures Divide(current, max).Finite?
    ensures Divide(current, max).value >= k <==> 10 * current >= tenths * max
  {
    var m := max as real;
    var x := current as real / m;
    assert x * m == current as real;
    MulMonotone(x, k, m);
    assert k * m * 10.0 == (tenths * max) as real;
    assert (10 * current) as real == x * m * 10.0;
  }

  lemma MulMonotone(a: real, b: real, m: real)
    requires m > 0.0
    ensures a >= b <==> a * m >= b * m
  {
  }

  /** For a fixed positive maximum, more people never give a milder colour. */
  lemma ColourMonotone(fewer: int, more: int, max: int)
    requires max > 0 && fewer <= more
    ensures Severity(BarColour(fewer, max)) <= Severity(BarColour(more, max))
  {
    ColourThresholds(fewer, max);
    ColourThresholds(more, max);
  }
}
