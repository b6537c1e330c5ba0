/** Model of src/etrade_tax_poland/common.py: the flat tax rate and the rounding used by the
    tax arithmetic. Money is an exact `real`; Python's binary floating point is not modelled,
    so `round` is the exact round-half-to-even that Python's `round` performs on values it
    represents exactly. */
module Common {

  /** The Polish flat tax rate on dividends and capital gains (common.py:5). */
  const TAX_PL: real := 0.19

  /** One line of a summary CSV: a name, a value and the tax-form field it goes into; the
      number formatting is not modelled. */
  datatype SummaryLine = SummaryLine(name: string, value: real, field: string)

  /** True when x is a whole number. */
  predicate IsWhole(x: real) {
    x.Floor as real == x
  }

  /** True when x is a whole number of hundredths. */
  predicate IsCents(x: real) {
    (100.0 * x).Floor as real == 100.0 * x
  }

  /** Python's `math.ceil`: the least integer not below x. */
  function Ceil(x: real): (n: int)
    ensures x <= n as real < x + 1.0
  {
    if x.Floor as real == x then x.Floor else x.Floor + 1
  }

  /** Python's `round(x)` and `round(x, 0)`: the nearest integer, a tie going to the even one. */
  function RoundHalfEven(x: real): (n: int)
    ensures x - 0.5 <= n as real <= x + 0.5
    ensures (n as real == x - 0.5 || n as real == x + 0.5) ==> n % 2 == 0
  {
    var f := x.Floor;
    var frac := x - f as real;
    if frac < 0.5 then f
    else if frac > 0.5 then f + 1
    else if f % 2 == 0 then f
    else f + 1
  }

  /** The two postconditions of RoundHalfEven single out its result. */
  lemma RoundHalfEvenUnique(x: real, n: int)
    requires x - 0.5 <= n as real <= x + 0.5
    requires (n as real == x - 0.5 || n as real == x + 0.5) ==> n % 2 == 0
    ensures n == RoundHalfEven(x)
  {
  }

  /** Python's `round(x, 2)`: x to the nearest hundredth, a tie going to the even hundredth. */
  function RoundCents(x: real): (r: real)
    ensures x - 0.005 <= r <= x + 0.005
    ensures IsCents(r)
  {
    var n := RoundHalfEven(100.0 * x);
    assert (100.0 * (n as real / 100.0)).Floor == n;
    n as real / 100.0
  }

  /** Rounding to hundredths leaves a whole number of hundredths alone. */
  lemma RoundCentsOfCents(x: real)
    requires IsCents(x)
    ensures RoundCents(x) == x
  {
    var k := (100.0 * x).Floor;
    RoundHalfEvenUnique(100.0 * x, k);
  }

  /** `round_up` (common.py:8-10): x rounded up to the next hundredth, `ceil(100 x) / 100`. */
  function RoundUp(x: real): (r: real)
    ensures x <= r < x + 0.01
    ensures IsCents(r)
  {
    var n := Ceil(100.0 * x);
    assert (100.0 * (n as real / 100.0)).Floor == n;
    n as real / 100.0
  }

  /** RoundUp(x) is the least whole number of hundredths that is not below x. */
  lemma RoundUpLeast(x: real, c: real)
    requires IsCents(c) && x <= c
    ensures RoundUp(x) <= c
  {
    var k := (100.0 * c).Floor;
    assert 100.0 * x <= k as real;
    assert Ceil(100.0 * x) <= k;
  }

  /** round_up leaves a whole number of hundredths alone, so it is idempotent. */
  lemma RoundUpIdempotent(x: real)
    ensures RoundUp(RoundUp(x)) == RoundUp(x)
  {
    var r := RoundUp(x);
    RoundUpLeast(r, r);
  }

  /** round_up is monotone. */
  lemma RoundUpMonotone(x: real, y: real)
    requires x <= y
    ensures RoundUp(x) <= RoundUp(y)
  {
    RoundUpLeast(x, RoundUp(y));
  }
}
