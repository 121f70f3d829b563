/**
 * Python's integer-to-text formatting as it is used by the load tester:
 * `f"{n}"`, `f"{n:06d}"`, the fixed-width fields `%H`, `%M`, `%S`, `%f` of
 * `strftime`, and `int(s)` on a string of ASCII digits.
 */
module Format {

  predicate IsDigit(c: char) {
    '0' <= c <= '9'
  }

  predicate AllDigits(s: string) {
    forall i :: 0 <= i < |s| ==> IsDigit(s[i])
  }

  function DigitValue(c: char): nat
    requires IsDigit(c)
  {
    c as int - '0' as int
  }

  function DigitChar(d: nat): (c: char)
    requires d < 10
    ensures IsDigit(c) && DigitValue(c) == d
  {
    ('0' as int + d) as char
  }

  /** `c * n` for a one-element string or byte string `c`. */
  function Repeat<T>(c: T, n: nat): (s: seq<T>)
    ensures |s| == n
    ensures forall i :: 0 <= i < n ==> s[i] == c
  {
    seq(n, _ => c)
  }

  function Pow10(n: nat): (p: nat)
    ensures p >= 1
  {
    if n == 0 then 1 else 10 * Pow10(n - 1)
  }

  /** `str(n)` for a non-negative int: the shortest decimal numeral. */
  function Decimal(n: nat): (s: string)
    ensures 1 <= |s| && AllDigits(s)
    ensures s[0] == '0' ==> n == 0
    decreases n
  {
    if n < 10 then [DigitChar(n)] else Decimal(n / 10) + [DigitChar(n % 10)]
  }

  /** `f"{n:0{w}d}"` for a non-negative int: at least `w` digits, zeros on the left. */
  function ZeroPadded(n: nat, w: nat): (s: string)
    ensures |s| >= w && AllDigits(s)
  {
    var d := Decimal(n);
    if |d| >= w then d else Repeat('0', w - |d|) + d
  }

  /** Exactly `w` digits: the `w` lowest decimal digits of `n`, as `strftime` writes a field. */
  function FixedDigits(n: nat, w: nat): (s: string)
    ensures |s| == w && AllDigits(s)
  {
    if w == 0 then [] else FixedDigits(n / 10, w - 1) + [DigitChar(n % 10)]
  }

  /** `int(s)` for a string of ASCII digits (leading zeros allowed, "" read as 0). */
  function DigitsValue(s: string): nat
    requires AllDigits(s)
  {
    if s == [] then 0 else DigitsValue(s[..|s| - 1]) * 10 + DigitValue(s[|s| - 1])
  }

  lemma DigitsValueSnoc(s: string, c: char)
    requires AllDigits(s) && IsDigit(c)
    ensures AllDigits(s + [c])
    ensures DigitsValue(s + [c]) == DigitsValue(s) * 10 + DigitValue(c)
  {
    assert (s + [c])[..|s|] == s;
  }

  /** Reading back the numeral of `n` gives `n`. */
  lemma {:induction false} DecimalValue(n: nat)
    ensures DigitsValue(Decimal(n)) == n
    decreases n
  {
    if n < 10 {
      DigitsValueSnoc([], DigitChar(n));
      assert [] + [DigitChar(n)] == [DigitChar(n)];
    } else {
      DecimalValue(n / 10);
      DigitsValueSnoc(Decimal(n / 10), DigitChar(n % 10));
    }
  }

  /** Leading zeros do not change the value read by `int`. */
  lemma {:induction false} LeadingZerosValue(k: nat, s: string)
    requires AllDigits(s)
    ensures AllDigits(Repeat('0', k) + s)
    ensures DigitsValue(Repeat('0', k) + s) == DigitsValue(s)
    decreases |s|, k
  {
    var z := Repeat('0', k);
    if s == [] {
      assert z + s == z;
      if k > 0 {
        assert z[..k - 1] == Repeat('0', k - 1) + [];
        LeadingZerosValue(k - 1, []);
      }
    } else {
      var init := s[..|s| - 1];
      assert (z + s)[..|z + s| - 1] == z + init;
      LeadingZerosValue(k, init);
    }
  }

  /** `int(f"{n:0{w}d}") == n`. */
  lemma ZeroPaddedValue(n: nat, w: nat)
    ensures DigitsValue(ZeroPadded(n, w)) == n
  {
    var d := Decimal(n);
    var k := if |d| >= w then 0 else w - |d|;
    assert ZeroPadded(n, w) == Repeat('0', k) + d;
    LeadingZerosValue(k, d);
    DecimalValue(n);
  }

  /** Below `10^w`, the `w` fixed digits of `n` read back as `n`. */
  lemma {:induction false} FixedDigitsValue(n: nat, w: nat)
    requires n < Pow10(w)
    ensures DigitsValue(FixedDigits(n, w)) == n
  {
    if w > 0 {
      FixedDigitsValue(n / 10, w - 1);
      DigitsValueSnoc(FixedDigits(n / 10, w - 1), DigitChar(n % 10));
    }
  }

  lemma DivUnique(a: int, d: int, q: int, r: int)
    requires d > 0 && 0 <= r < d && a == d * q + r
    ensures a / d == q
  {
    var x := q - a / d;
    assert d * x == a % d - r;
    assert -d < d * x < d;
  }

  lemma DivDiv(a: nat, b: nat, c: nat)
    requires b > 0 && c > 0
    ensures a / b / c == a / (b * c)
  {
    var q, r := a / b, a % b;
    var q2, r2 := q / c, q % c;
    assert b * r2 <= b * (c - 1);
    assert a == (b * c) * q2 + (b * r2 + r);
    DivUnique(a, b * c, q2, b * r2 + r);
  }

  /** Dropping the last `k` of `w + k` fixed digits leaves the `w` fixed digits of `n / 10^k`. */
  lemma {:induction false} FixedDigitsPrefix(n: nat, w: nat, k: nat)
    ensures FixedDigits(n, w + k)[..w] == FixedDigits(n / Pow10(k), w)
  {
    if k > 0 {
      FixedDigitsPrefix(n / 10, w, k - 1);
      DivDiv(n, 10, Pow10(k - 1));
      assert FixedDigits(n, w + k)[..w] == FixedDigits(n / 10, w + k - 1)[..w];
    }
  }
}
