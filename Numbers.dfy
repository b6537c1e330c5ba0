/** Python's number conversions as the parsers use them: `int(s)`, `float(s)` and the truncating
    `int(x)` of a float. Only plain decimal notation is modelled (an optional sign, digits and an
    optional fraction); exponents, `inf`/`nan`, underscores and surrounding whitespace are not. */
module Numbers {
  import opened Results
  import Text

  predicate IsDigit(c: char) {
    '0' <= c <= '9'
  }

  predicate AllDigits(s: string) {
    forall k :: 0 <= k < |s| ==> IsDigit(s[k])
  }

  /** The value of a string of decimal digits ("" is 0). */
  function DigitsValue(s: string): nat
    requires AllDigits(s)
  {
    if s == [] then 0 else 10 * DigitsValue(s[..|s| - 1]) + (s[|s| - 1] as int - '0' as int)
  }

  function Pow10(n: nat): (p: nat)
    ensures p >= 1
  {
    if n == 0 then 1 else 10 * Pow10(n - 1)
  }

  /** Splits an optional leading sign off s: whether it was '-', and the rest. */
  function Unsigned(s: string): (bool, string) {
    if |s| > 0 && (s[0] == '-' || s[0] == '+') then (s[0] == '-', s[1..]) else (false, s)
  }

  /** Python's `int(s)`: an optional sign and one or more digits, otherwise ValueError. */
  function ParseInt(s: string): Result<int> {
    var (negative, body) := Unsigned(s);
    if body != [] && AllDigits(body) then
      Ok(if negative then -(DigitsValue(body) as int) else DigitsValue(body))
    else Err(ValueError)
  }

  /** Python's `float(s)` on decimal notation: an optional sign, then digits with an optional
      '.' and fraction digits, at least one digit in all; otherwise ValueError. */
  function ParseFloat(s: string): Result<real> {
    var (negative, body) := Unsigned(s);
    var parts := Text.SplitOn(body, '.');
    var whole := parts[0];
    var frac := if |parts| == 2 then parts[1] else [];
    if |parts| <= 2 && AllDigits(whole) && AllDigits(frac) && whole + frac != [] then
      var v := DigitsValue(whole) as real + DigitsValue(frac) as real / Pow10(|frac|) as real;
      Ok(if negative then -v else v)
    else Err(ValueError)
  }

  /** Python's `int(x)` on a float: truncation toward zero. */
  function Truncate(x: real): (n: int)
    ensures 0.0 <= x ==> n >= 0 && n as real <= x < n as real + 1.0
    ensures x < 0.0 ==> n <= 0 && n as real - 1.0 < x <= n as real
  {
    if x >= 0.0 then x.Floor else -((-x).Floor)
  }

  /** Python's `int(float(s))`, the share counts of the confirmations. */
  function ParseShares(s: string): Result<int> {
    var x :- ParseFloat(s);
    Ok(Truncate(x))
  }

  /** The decimal digits of n without leading zeros: Python's `str(n)`. */
  function Decimal(n: nat): (s: string)
    ensures |s| >= 1 && AllDigits(s)
  {
    if n < 10 then [('0' as int + n) as char]
    else Decimal(n / 10) + [('0' as int + n % 10) as char]
  }

  lemma {:induction false} DigitsValueDecimal(n: nat)
    ensures DigitsValue(Decimal(n)) == n
  {
    if n >= 10 {
      DigitsValueDecimal(n / 10);
      var s := Decimal(n);
      assert s[..|s| - 1] == Decimal(n / 10);
    }
  }

  /** `int` reads back what `str` writes. */
  lemma ParseIntDecimal(n: nat)
    ensures ParseInt(Decimal(n)) == Ok(n)
    ensures ParseInt("-" + Decimal(n)) == Ok(-(n as int))
  {
    DigitsValueDecimal(n);
    assert ("-" + Decimal(n))[1..] == Decimal(n);
  }

  /** Every string `int` accepts, `float` accepts with the same value. */
  lemma ParseFloatOfInt(s: string)
    requires ParseInt(s).Ok?
    ensures ParseFloat(s) == Ok(ParseInt(s).value as real)
  {
    var (negative, body) := Unsigned(s);
    assert '.' !in body;
    Text.SplitOnJoin([body], '.');
    assert Text.SplitOn(body, '.') == [body];
    assert body + [] == body;
  }

  /** `float` reads a number written with two decimals: "2499.48" is 2499 + 48/100. */
  lemma ParseFloatCents(n: nat, c: nat)
    requires c < 100
    ensures ParseFloat(Decimal(n) + "." + [('0' as int + c / 10) as char, ('0' as int + c % 10) as char])
         == Ok(n as real + c as real / 100.0)
  {
    var w := Decimal(n);
    var f := [('0' as int + c / 10) as char, ('0' as int + c % 10) as char];
    var s := w + "." + f;
    DigitsValueDecimal(n);
    assert AllDigits(f);
    assert f[..1] == [f[0]];
    assert [f[0]][..0] == [];
    assert DigitsValue([f[0]]) == c / 10;
    assert DigitsValue(f) == c;
    assert '.' !in w;
    assert '.' !in f;
    assert Text.Join([w, f], '.') == s;
    Text.SplitOnJoin([w, f], '.');
    assert Unsigned(s) == (false, s) by {
      assert s[0] == w[0];
    }
    assert Text.SplitOn(s, '.') == [w, f];
    assert Pow10(2) == 100;
    assert AllDigits(w) && AllDigits(f) && w + f != [];
    assert |f| == 2;
    assert DigitsValue(w) as real + DigitsValue(f) as real / Pow10(|f|) as real == n as real + c as real / 100.0;
    assert ParseFloat(s) == Ok(n as real + c as real / 100.0);
  }
}
