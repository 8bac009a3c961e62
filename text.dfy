/**
 * Decimal rendering of integers as .NET formats them: `n.ToString()` and the
 * standard format `n.ToString("D<w>")` (at least w digits, zero-padded, with a
 * leading minus sign for negative values), the truncating remainder of C#,
 * and the UTF-16 length of a string.
 */
module Text {

  predicate IsDigit(c: char) {
    '0' <= c <= '9'
  }

  predicate AllDigits(s: string) {
    forall i | 0 <= i < |s| :: IsDigit(s[i])
  }

  function Digit(d: nat): (c: char)
    requires d < 10
    ensures IsDigit(c) && c as int - '0' as int == d
  {
    ('0' as int + d) as char
  }

  function DigitValue(c: char): nat
    requires IsDigit(c)
  {
    c as int - '0' as int
  }

  /** The number a string of decimal digits denotes (leading zeros allowed). */
  function ValueOf(s: string): nat
    requires AllDigits(s)
  {
    if s == [] then 0 else ValueOf(s[..|s| - 1]) * 10 + DigitValue(s[|s| - 1])
  }

  function Pow10(k: nat): (p: nat)
    ensures p >= 1
  {
    if k == 0 then 1 else 10 * Pow10(k - 1)
  }

  /** `n.ToString()` for a non-negative integer: its shortest decimal rendering. */
  function Decimal(n: nat): (s: string)
    ensures |s| >= 1 && AllDigits(s)
    decreases n
  {
    if n < 10 then [Digit(n)] else Decimal(n / 10) + [Digit(n % 10)]
  }

  /** `n.ToString()` for any integer. */
  function IntToString(n: int): string {
    if n < 0 then "-" + Decimal(-n) else Decimal(n)
  }

  function Zeros(k: nat): (z: string)
    ensures |z| == k && AllDigits(z)
  {
    seq(k, _ => '0')
  }

  /** Left-pads a digit string with zeros to at least `width` characters. */
  function ZeroPad(s: string, width: nat): string {
    if |s| >= width then s else Zeros(width - |s|) + s
  }

  /** `n.ToString("D<width>")`. */
  function FormatD(n: int, width: nat): string {
    if n < 0 then "-" + ZeroPad(Decimal(-n), width) else ZeroPad(Decimal(n), width)
  }

  /** C#'s `a % b` for a positive divisor: the remainder takes the sign of `a`. */
  function TruncRem(a: int, b: int): (r: int)
    requires b > 0
    ensures -b < r < b
    ensures a >= 0 ==> 0 <= r
    ensures a < 0 ==> r <= 0
  {
    if a >= 0 then a % b else -((-a) % b)
  }

  // ---------------------------------------------------------------------------
  // Properties of the rendering
  // ---------------------------------------------------------------------------

  /** Reading the decimal rendering back gives the number. */
  lemma {:induction false} DecimalValue(n: nat)
    ensures ValueOf(Decimal(n)) == n
    decreases n
  {
    var s := Decimal(n);
    if n >= 10 {
      DecimalValue(n / 10);
      assert s[..|s| - 1] == Decimal(n / 10);
      assert s[|s| - 1] == Digit(n % 10);
    }
  }

  /** Leading zeros do not change the value of a digit string. */
  lemma {:induction false} ValueOfLeadingZeros(k: nat, s: string)
    requires AllDigits(s)
    ensures AllDigits(Zeros(k) + s) && ValueOf(Zeros(k) + s) == ValueOf(s)
    decreases |s|, k
  {
    var t := Zeros(k) + s;
    if s == [] {
      assert t == Zeros(k);
      if k > 0 {
        assert t[..|t| - 1] == Zeros(k - 1) + [];
        ValueOfLeadingZeros(k - 1, []);
      }
    } else {
      assert t[..|t| - 1] == Zeros(k) + s[..|s| - 1];
      ValueOfLeadingZeros(k, s[..|s| - 1]);
    }
  }

  /** Zero padding keeps the value and yields at least `width` digits. */
  lemma PaddedValue(n: nat, width: nat)
    ensures AllDigits(ZeroPad(Decimal(n), width))
    ensures ValueOf(ZeroPad(Decimal(n), width)) == n
    ensures |ZeroPad(Decimal(n), width)| >= width
    ensures |ZeroPad(Decimal(n), width)| == if |Decimal(n)| >= width then |Decimal(n)| else width
  {
    DecimalValue(n);
    if |Decimal(n)| < width {
      ValueOfLeadingZeros(width - |Decimal(n)|, Decimal(n));
    }
  }

  /** A number below 10^w has at most w digits. */
  lemma {:induction false} DecimalAtMost(n: nat, w: nat)
    requires 1 <= w && n < Pow10(w)
    ensures |Decimal(n)| <= w
    decreases w
  {
    if n >= 10 {
      assert w > 1;
      DecimalAtMost(n / 10, w - 1);
    }
  }

  /** A number at least 10^w has more than w digits. */
  lemma {:induction false} DecimalAtLeast(n: nat, w: nat)
    requires Pow10(w) <= n
    ensures |Decimal(n)| > w
    decreases w
  {
    if w > 0 {
      DecimalAtLeast(n / 10, w - 1);
    }
  }

  /** Padding a number below 10^width to `width` digits gives exactly `width` digits. */
  lemma PaddedLength(n: nat, width: nat)
    requires 1 <= width && n < Pow10(width)
    ensures |ZeroPad(Decimal(n), width)| == width
  {
    DecimalAtMost(n, width);
  }

  /** Two equal strings, each of the form `a + "-" + b` with no dash in `a`, split alike. */
  lemma SplitAtDash(a: string, b: string, c: string, d: string)
    requires '-' !in a && '-' !in c
    requires a + "-" + b == c + "-" + d
    ensures a == c && b == d
  {
    var s := a + "-" + b;
    var m := if |a| <= |c| then |a| else |c|;
    assert s[m] == (c + "-" + d)[m];
    assert a == s[..|a|] && c == s[..|c|];
    assert b == s[|a| + 1..] && d == s[|c| + 1..];
  }

  /** A comma-free head is recovered from `head + ", " + rest`. */
  lemma SplitAtComma(a: string, b: string, c: string, d: string)
    requires ',' !in a && ',' !in c
    requires a + ", " + b == c + ", " + d
    ensures a == c && b == d
  {
    var s := a + ", " + b;
    var m := if |a| <= |c| then |a| else |c|;
    assert s[m] == (c + ", " + d)[m];
    assert a == s[..|a|] && c == s[..|c|];
    assert b == s[|a| + 2..] && d == s[|c| + 2..];
  }

  lemma DigitsHaveNoDash(s: string)
    requires AllDigits(s)
    ensures '-' !in s
  {
  }

  /**
   * `s.Length` of a .NET string, which counts UTF-16 code units: a character
   * outside the Basic Multilingual Plane is a surrogate pair and counts twice.
   */
  function Utf16Length(s: string): (n: nat)
    ensures |s| <= n <= 2 * |s|
    ensures n == |s| <==> forall i | 0 <= i < |s| :: s[i] as int < 0x1_0000
  {
    if s == [] then 0
    else
      var rest := Utf16Length(s[1..]);
      assert forall i | 0 <= i < |s| - 1 :: s[1..][i] == s[i + 1];
      (if s[0] as int < 0x1_0000 then 1 else 2) + rest
  }

  /**
   * Any two characters outside the Basic Multilingual Plane (two emoji, say)
   * make a string of two characters whose .NET length is 4.
   */
  lemma AstralPairLength(a: char, b: char)
    requires a as int >= 0x1_0000 && b as int >= 0x1_0000
    ensures |[a, b]| == 2 && Utf16Length([a, b]) == 4
  {
    assert [a, b][1..] == [b];
  }

  /** The zero-padded rendering is injective. */
  lemma PaddedInjective(m: nat, n: nat, width: nat)
    requires ZeroPad(Decimal(m), width) == ZeroPad(Decimal(n), width)
    ensures m == n
  {
    PaddedValue(m, width);
    PaddedValue(n, width);
  }
}
