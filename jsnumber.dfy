/** The few JavaScript number operations the chart pipeline relies on,
    stated over exact reals: `Number(x.toFixed(2))`, `d3.descending`, and
    division that may leave the finite numbers. */
module JsNumber {

  /** A JavaScript division result: finite, or one of the non-finite values. */
  datatype Num = Finite(value: real) | PosInfinity | NegInfinity | NaN

  /** `a / b` as IEEE division does it: a zero divisor (here always +0, as
      the divisors are integer counts) gives an infinity of the dividend's
      sign, or NaN for 0 / 0. */
  function Divide(a: real, b: real): (r: Num)
    ensures r.Finite? <==> b != 0.0
    ensures r.Finite? ==> r.value * b == a
    ensures r == NaN <==> a == 0.0 && b == 0.0
    ensures r == PosInfinity <==> b == 0.0 && a > 0.0
    ensures r == NegInfinity <==> b == 0.0 && a < 0.0
  {
    if b != 0.0 then Finite(a / b)
    else if a > 0.0 then PosInfinity
    else if a < 0.0 then NegInfinity
    else NaN
  }

  /** Hundredths of a non-negative x, ties going up: the integer n that
      ECMAScript's toFixed(2) picks (n / 100 - x closest to zero, the larger
      n on a tie). */
  function HundredthsUp(x: real): (n: int)
    requires x >= 0.0
    ensures n >= 0
    ensures -0.5 < n as real - x * 100.0 <= 0.5
  {
    (x * 100.0 + 0.5).Floor
  }

  /** The integer number of hundredths `Number(x.toFixed(2))` stands for:
      toFixed rounds the magnitude and puts the sign back, so ties go away
      from zero (and a negative x that rounds to zero gives -0, which is 0). */
  function Cents(x: real): (n: int)
    ensures -0.5 <= n as real - x * 100.0 <= 0.5
  {
    if x >= 0.0 then HundredthsUp(x) else -HundredthsUp(-x)
  }

  /** `Number(x.toFixed(2))` on an exact real. */
  function Round2(x: real): (r: real)
    ensures -0.005 <= r - x <= 0.005
  {
    Cents(x) as real / 100.0
  }

  lemma HundredthsUpMonotone(x: real, y: real)
    requires 0.0 <= x <= y
    ensures HundredthsUp(x) <= HundredthsUp(y)
  {
    assert x * 100.0 + 0.5 <= y * 100.0 + 0.5;
  }

  /** Rounding never reverses the order of two numbers. */
  lemma Round2Monotone(x: real, y: real)
    requires x <= y
    ensures Round2(x) <= Round2(y)
  {
    if 0.0 <= x {
      HundredthsUpMonotone(x, y);
    } else if y < 0.0 {
      HundredthsUpMonotone(-y, -x);
    }
  }

  /** Zero and the sign survive rounding (a negative number may become 0). */
  lemma Round2Sign(x: real)
    ensures x == 0.0 ==> Round2(x) == 0.0
    ensures x >= 0.0 ==> Round2(x) >= 0.0
    ensures x <= 0.0 ==> Round2(x) <= 0.0
    ensures x <= -0.005 ==> Round2(x) < 0.0
  {
    if x == 0.0 {
      assert (0.5).Floor == 0;
    }
  }

  /** Two parts rounded separately add up to the rounded whole to within one
      hundredth: the three results are whole hundredths and each is off by at
      most half a hundredth. */
  lemma RoundedPartsWithinCent(a: real, b: real)
    ensures -0.01 <= Round2(a) + Round2(b) - Round2(a + b) <= 0.01
  {
    var d := Cents(a) + Cents(b) - Cents(a + b);
    assert -1.5 <= d as real <= 1.5;
    assert -1 <= d <= 1;
    assert Round2(a) + Round2(b) - Round2(a + b) == d as real / 100.0;
  }

  /** `d3.descending(a, b)` on numbers: negative when a comes first (a > b),
      positive when b does, zero when they are equal. NaN cannot arise from
      finite reals. */
  function Descending(a: real, b: real): (r: int)
    ensures r < 0 <==> b < a
    ensures r > 0 <==> b > a
    ensures r == 0 <==> a == b
  {
    if b < a then -1 else if b > a then 1 else 0
  }
}
