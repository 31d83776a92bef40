/** Integers as decimal text, and 64-bit wrap-around. */
module Decimals {

  function DigitChar(d: nat): (c: char)
    requires d < 10
    ensures '0' <= c <= '9' && DigitOf(c) == d
  {
    "0123456789"[d]
  }

  function Digits(n: nat): (s: string)
    ensures s != []
  {
    if n < 10 then [DigitChar(n)] else Digits(n / 10) + [DigitChar(n % 10)]
  }

  /** strconv.FormatInt in base ten. */
  function Decimal(n: int): string {
    if n < 0 then "-" + Digits(-n) else Digits(n)
  }

  function DigitOf(c: char): int {
    c as int - '0' as int
  }

  function ValueOf(s: string): int {
    if s == [] then 0 else 10 * ValueOf(s[..|s| - 1]) + DigitOf(s[|s| - 1])
  }

  lemma {:induction false} DigitsHaveValue(n: nat)
    ensures ValueOf(Digits(n)) == n
    ensures '-' !in Digits(n)
  {
    if n < 10 {
      assert [DigitChar(n)][..0] == [];
      assert ValueOf([]) == 0;
    } else {
      DigitsHaveValue(n / 10);
      var front, last := Digits(n / 10), DigitChar(n % 10);
      assert Digits(n)[..|front|] == front && Digits(n)[|front|] == last;
      assert ValueOf(Digits(n)) == 10 * ValueOf(front) + DigitOf(last);
    }
  }

  /** Different numbers have different texts, so nothing is lost by storing the text. */
  lemma DecimalInjective(m: int, n: int)
    requires Decimal(m) == Decimal(n)
    ensures m == n
  {
    DigitsHaveValue(if m < 0 then -m else m);
    DigitsHaveValue(if n < 0 then -n else n);
    assert m < 0 <==> Decimal(m)[0] == '-';
    assert n < 0 <==> Decimal(n)[0] == '-';
    if m < 0 {
      assert Decimal(m)[1..] == Digits(-m) && Decimal(n)[1..] == Digits(-n);
    }
  }

  /** A minus sign exactly for negative numbers, then decimal digits that have the number's value, the first of which is
      not zero unless it is the only one. */
  lemma DecimalReads(n: int)
    ensures n >= 0 ==> Decimal(n) != [] && ValueOf(Decimal(n)) == n && AllDigits(Decimal(n))
    ensures n >= 0 && |Decimal(n)| > 1 ==> Decimal(n)[0] != '0'
    ensures n < 0 ==> Decimal(n) == "-" + Decimal(-n)
  {
    if n >= 0 {
      DigitsHaveValue(n);
      DigitsAreDigits(n);
    }
  }

  predicate AllDigits(s: string) {
    forall i :: 0 <= i < |s| ==> '0' <= s[i] <= '9'
  }

  lemma {:induction false} DigitsAreDigits(n: nat)
    ensures AllDigits(Digits(n))
    ensures Digits(n)[0] == '0' ==> n == 0
    ensures n == 0 ==> Digits(n) == "0"
  {
    if n >= 10 {
      DigitsAreDigits(n / 10);
      assert Digits(n)[0] == Digits(n / 10)[0];
    }
  }

  const TWO_63 := 0x8000_0000_0000_0000
  const TWO_64 := 0x1_0000_0000_0000_0000

  /** What a signed 64-bit integer keeps of a number. */
  function Wrap64(x: int): (r: int)
    ensures -TWO_63 <= r < TWO_63
  {
    (x + TWO_63) % TWO_64 - TWO_63
  }

  /** The result differs by a multiple of 2^64, and is the only 64-bit number that does. */
  lemma Wrap64IsCongruent(x: int, y: int)
    ensures (x - Wrap64(x)) % 0x1_0000_0000_0000_0000 == 0
    ensures (x - y) % 0x1_0000_0000_0000_0000 == 0 && -0x8000_0000_0000_0000 <= y < 0x8000_0000_0000_0000 ==>
              y == Wrap64(x)
  {
  }

  lemma Between(x: int, y: int, m: int, n: int)
    requires 0 <= x <= m && -n <= y <= n
    ensures -(m * n) <= x * y <= m * n
  {
    assert -(x * n) <= x * y <= x * n by {
      assert 0 <= x * (n - y) == x * n - x * y;
      assert 0 <= x * (y + n) == x * y + x * n;
    }
    assert 0 <= (m - x) * n == m * n - x * n;
  }

  lemma ProductBound(x: int, y: int, m: int, n: int)
    requires 0 <= m && 0 <= n && -m <= x <= m && -n <= y <= n
    ensures -(m * n) <= x * y <= m * n
  {
    if x >= 0 {
      Between(x, y, m, n);
    } else {
      Between(-x, y, m, n);
      assert x * y == -(-x * y);
    }
  }

  /** A 32-bit weight times a score of at most 32 bits does not wrap. */
  lemma ProductFits(score: int, weight: int)
    requires -0x8000_0000 <= score <= 0x8000_0000 && -0x8000_0000 <= weight < 0x8000_0000
    ensures Wrap64(score * weight) == score * weight
  {
    ProductBound(score, weight, 0x8000_0000, 0x8000_0000);
  }
}
