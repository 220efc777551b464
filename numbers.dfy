/**
 * The values `int(...)` and `float(...)` give the digit strings the patterns
 * capture.  A price is kept as an exact rational, not an IEEE double.
 */
module Numbers {
  import opened Text

  /** The value of one decimal digit; other characters never reach here. */
  function DigitValue(c: char): (v: nat)
    ensures IsDigit(c) ==> v == c as int - '0' as int
    ensures v <= 9
  {
    if IsDigit(c) then c as int - '0' as int else 0
  }

  /** `int(t)` for a run of decimal digits: below ten to the number of digits. */
  function DigitsValue(t: string): (v: nat)
    ensures v < Pow10(|t|)
  {
    if t == [] then 0
    else
      var w := DigitsValue(t[..|t| - 1]);
      assert w * 10 + DigitValue(t[|t| - 1]) < Pow10(|t|) by {
        assert w + 1 <= Pow10(|t| - 1);
        assert (w + 1) * 10 <= Pow10(|t| - 1) * 10;
      }
      w * 10 + DigitValue(t[|t| - 1])
  }

  function Pow10(n: nat): (p: nat)
    ensures p >= 1
  {
    if n == 0 then 1 else 10 * Pow10(n - 1)
  }

  /** The position of the first '.' in `t`, or `|t|` when there is none. */
  function DotIndex(t: string): (d: nat)
    ensures d <= |t|
    ensures forall i :: 0 <= i < d ==> t[i] != '.'
    ensures d < |t| ==> t[d] == '.'
  {
    if t == [] then 0 else if t[0] == '.' then 0 else 1 + DotIndex(t[1..])
  }

  /**
   * `float(t)` for `\d+\.?\d*`, exactly: the whole part plus the fraction
   * digits over a power of ten.  The digits before the dot are its integer part.
   */
  function NumeralValue(t: string): (v: real)
    ensures DigitsValue(t[..DotIndex(t)]) as real <= v < DigitsValue(t[..DotIndex(t)]) as real + 1.0
  {
    var d := DotIndex(t);
    var frac := if d < |t| then t[d + 1..] else [];
    DigitsValue(t[..d]) as real + Fraction(DigitsValue(frac), |frac|)
  }

  /** `n` units of ten to the minus `k`: a proper fraction when `n` has at most `k` digits. */
  function Fraction(n: nat, k: nat): (f: real)
    ensures n < Pow10(k) ==> 0.0 <= f < 1.0
  {
    var q := Pow10(k) as real;
    QuotientTimesDivisor(n as real, q);
    n as real / q
  }

  /** Division by a positive real undoes multiplication, and a smaller numerator gives a proper fraction. */
  lemma QuotientTimesDivisor(n: real, q: real)
    requires q > 0.0
    ensures (n / q) * q == n
    ensures 0.0 <= n < q ==> 0.0 <= n / q < 1.0
  {
  }

  /** Reading an integer product as a real is the product of the reals. */
  lemma CastProduct(x: int, p: int)
    ensures (x * p) as real == x as real * p as real
  {
  }

  /** `t` holds no '.'. */
  predicate DotFree(t: string) { forall i :: 0 <= i < |t| ==> t[i] != '.' }

  /** A numeral without a dot reads as the integer its digits spell: `float("42") == 42.0`. */
  lemma NumeralOfWhole(t: string)
    requires DotFree(t)
    ensures NumeralValue(t) == DigitsValue(t) as real
  {
    assert t[..DotIndex(t)] == t;
  }

  /** Reading `a` then `b` is reading `a`, shifted left by the digits of `b`, plus `b`. */
  lemma {:induction false} DigitsAppend(a: string, b: string)
    ensures DigitsValue(a + b) == DigitsValue(a) * Pow10(|b|) + DigitsValue(b)
  {
    if b == [] {
      assert a + b == a;
    } else {
      var b' := b[..|b| - 1];
      var c := b[|b| - 1];
      assert (a + b)[..|a + b| - 1] == a + b' && (a + b)[|a + b| - 1] == c;
      DigitsAppend(a, b');
      ShiftOneDigit(DigitsValue(a), Pow10(|b'|), DigitsValue(b'), DigitValue(c));
    }
  }

  /** One more digit on the right multiplies the shift by ten. */
  lemma ShiftOneDigit(x: int, p: int, y: int, c: int)
    ensures (x * p + y) * 10 + c == x * (10 * p) + (y * 10 + c)
  {
    assert (x * p) * 10 == x * (10 * p);
  }

  /**
   * A numeral with a fraction is the integer its digits spell without the
   * dot, over ten to the number of fraction digits: `float("12.5") == 125 / 10`.
   */
  lemma NumeralScaled(a: string, b: string)
    requires DotFree(a) && DotFree(b)
    ensures NumeralValue(a + "." + b) == Fraction(DigitsValue(a + b), |b|)
  {
    NumeralParts(a, b);
    PartsJoined(a, b);
  }

  /** The whole digits plus the fraction digits over their power of ten is all the digits over it. */
  lemma PartsJoined(a: string, b: string)
    ensures DigitsValue(a) as real + Fraction(DigitsValue(b), |b|) == Fraction(DigitsValue(a + b), |b|)
  {
    DigitsAppend(a, b);
    ShiftedFraction(DigitsValue(a), DigitsValue(b), |b|);
  }

  /** The first dot of `a + "." + b` is the one after `a`, and the numeral's value is read around it. */
  lemma NumeralParts(a: string, b: string)
    requires DotFree(a)
    ensures NumeralValue(a + "." + b) == DigitsValue(a) as real + Fraction(DigitsValue(b), |b|)
  {
    var t := a + "." + b;
    DotAfter(a, "." + b);
    assert t == a + ("." + b);
    assert t[..|a|] == a && t[|a| + 1..] == b;
  }

  /** A dot-free prefix moves the first dot along by its length. */
  lemma {:induction false} DotAfter(a: string, s: string)
    requires DotFree(a) && s != [] && s[0] == '.'
    ensures DotIndex(a + s) == |a|
  {
    if a != [] {
      assert (a + s)[1..] == a[1..] + s;
      DotAfter(a[1..], s);
    }
  }

  /** An integer part plus a fraction with `k` places is that many places more of units over ten to the `k`. */
  lemma ShiftedFraction(x: nat, y: nat, k: nat)
    ensures x as real + Fraction(y, k) == Fraction(x * Pow10(k) + y, k)
  {
    var q := Pow10(k) as real;
    CastProduct(x, Pow10(k));
    CommonDenominator(x as real, y as real, q);
  }

  /** `x + y / q == (x * q + y) / q`. */
  lemma CommonDenominator(x: real, y: real, q: real)
    requires q > 0.0
    ensures x + y / q == (x * q + y) / q
  {
  }

  /** The decimal digits of `n`, most significant first, without leading zeros (`"0"` for zero). */
  function Decimal(n: nat): (t: string)
    ensures t != [] && forall i :: 0 <= i < |t| ==> IsDigit(t[i])
  {
    if n < 10 then [('0' as int + n) as char] else Decimal(n / 10) + [('0' as int + n % 10) as char]
  }

  /** `int(str(n)) == n`: reading back the digits of a count gives the count. */
  lemma {:induction false} DigitsOfDecimal(n: nat)
    ensures DigitsValue(Decimal(n)) == n
  {
    var t := Decimal(n);
    if n >= 10 {
      DigitsOfDecimal(n / 10);
      assert t[..|t| - 1] == Decimal(n / 10);
    }
  }
}
