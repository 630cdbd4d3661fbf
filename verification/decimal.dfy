/** Decimal text of non-negative integers, as JavaScript prints them with `n + ''`,
    and the reading of such text back into a number. */
module Decimal {

  predicate IsDigit(c: char) {
    '0' <= c <= '9'
  }

  predicate AllDigits(s: string) {
    forall i :: 0 <= i < |s| ==> IsDigit(s[i])
  }

  function DigitChar(d: nat): (c: char)
    requires d < 10
    ensures IsDigit(c)
  {
    ['0', '1', '2', '3', '4', '5', '6', '7', '8', '9'][d]
  }

  function DigitValue(c: char): (d: nat)
    requires IsDigit(c)
    ensures d < 10
  {
    (c as int - '0' as int) as nat
  }

  lemma DigitValueOfChar(d: nat)
    requires d < 10
    ensures DigitValue(DigitChar(d)) == d
  {
  }

  function Pow10(k: nat): (p: nat)
    ensures p >= 1
  {
    if k == 0 then 1 else 10 * Pow10(k - 1)
  }

  /** The shortest decimal text of `n`: no leading zero, "0" for zero. */
  function Digits(n: nat): (s: string)
    ensures |s| >= 1
    ensures AllDigits(s)
    ensures s[0] != '0' || n == 0
  {
    if n < 10 then [DigitChar(n)] else Digits(n / 10) + [DigitChar(n % 10)]
  }

  /** The value of a decimal digit string, most significant digit first. */
  function Parse(s: string): nat
    requires AllDigits(s)
  {
    if |s| == 0 then 0 else 10 * Parse(s[..|s| - 1]) + DigitValue(s[|s| - 1])
  }

  /** Reading the printed text of a number gives back the number. */
  lemma {:induction false} ParseDigits(n: nat)
    ensures Parse(Digits(n)) == n
  {
    var s := Digits(n);
    if n < 10 {
      DigitValueOfChar(n);
    } else {
      assert s[..|s| - 1] == Digits(n / 10);
      DigitValueOfChar(n % 10);
      ParseDigits(n / 10);
    }
  }

  /** A number of at least `Pow10(k)` prints with more than `k` digits. */
  lemma {:induction false} DigitsLength(n: nat, k: nat)
    requires n >= Pow10(k)
    ensures |Digits(n)| > k
  {
    if k > 0 {
      assert n >= 10;
      assert n / 10 >= Pow10(k - 1);
      DigitsLength(n / 10, k - 1);
    }
  }

  /** The last `k` characters of a digit string, read as a number. */
  function Suffix(s: string, k: nat): (t: string)
    requires k <= |s|
    ensures |t| == k
  {
    s[|s| - k..]
  }

  lemma ModOfShift(a: nat, d: nat, p: nat)
    requires d < 10 && p >= 1
    ensures (10 * a + d) % (10 * p) == 10 * (a % p) + d
  {
    var q := a / p;
    var r := a % p;
    assert a == q * p + r;
    assert 10 * a + d == q * (10 * p) + (10 * r + d);
    assert 0 <= 10 * r + d < 10 * p;
    ModUnique(10 * a + d, 10 * p, q, 10 * r + d);
  }

  lemma ModUnique(x: int, m: int, q: int, r: int)
    requires m > 0 && 0 <= r < m && x == q * m + r
    ensures x % m == r
  {
    var q' := x / m;
    var r' := x % m;
    assert x == q' * m + r';
    var k := q - q';
    assert k * m == q * m - q' * m;
    assert k * m == r' - r;
    if k > 0 {
      MulAtLeast(k, m);
    } else if k < 0 {
      assert (-k) * m == -(k * m);
      MulAtLeast(-k, m);
    }
  }

  lemma MulAtLeast(k: int, m: int)
    requires k >= 1 && m > 0
    ensures k * m >= m
  {
  }

  /** The last `k` digits of a digit string denote its value modulo 10^k. */
  lemma {:induction false} ParseSuffix(s: string, k: nat)
    requires AllDigits(s) && k <= |s|
    ensures Parse(Suffix(s, k)) == Parse(s) % Pow10(k)
  {
    if k > 0 {
      var t := s[..|s| - 1];
      var last := s[|s| - 1];
      var u := Suffix(s, k);
      assert u[..|u| - 1] == Suffix(t, k - 1);
      assert u[|u| - 1] == last;
      ParseSuffix(t, k - 1);
      ModOfShift(Parse(t), DigitValue(last), Pow10(k - 1));
    }
  }
}
