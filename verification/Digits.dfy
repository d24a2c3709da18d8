/** Decimal numerals: printing a natural number and reading a string of digits. */
module Digits {

  predicate IsDigit(c: char) { '0' <= c <= '9' }

  predicate AllDigits(s: string) { forall i :: 0 <= i < |s| ==> IsDigit(s[i]) }

  function DigitValue(c: char): (d: nat)
    requires IsDigit(c)
    ensures d < 10
  {
    c as int - '0' as int
  }

  function DigitChar(d: nat): (c: char)
    requires d < 10
    ensures IsDigit(c) && DigitValue(c) == d
  {
    ('0' as int + d) as char
  }

  function Pow10(n: nat): (p: nat)
    ensures p >= 1
  {
    if n == 0 then 1 else 10 * Pow10(n - 1)
  }

  function Parse(s: string): nat
    requires AllDigits(s)
  {
    if s == "" then 0 else 10 * Parse(s[..|s| - 1]) + DigitValue(s[|s| - 1])
  }

  function Print(n: nat): (s: string)
    ensures AllDigits(s) && |s| >= 1
  {
    if n < 10 then [DigitChar(n)] else Print(n / 10) + [DigitChar(n % 10)]
  }

  function Zeros(k: nat): (s: string)
    ensures |s| == k && AllDigits(s)
  {
    seq(k, _ => '0')
  }

  /** `padStart` with zeros, and Python's `rjust`. */
  function PadStart(s: string, width: nat): string {
    if |s| >= width then s else Zeros(width - |s|) + s
  }

  /** `padEnd` with zeros. */
  function PadEnd(s: string, width: nat): string {
    if |s| >= width then s else s + Zeros(width - |s|)
  }

  lemma {:induction false} Pow10Adds(a: nat, b: nat)
    ensures Pow10(a + b) == Pow10(a) * Pow10(b)
  {
    if a != 0 {
      Pow10Adds(a - 1, b);
      assert Pow10(a + b) == 10 * (Pow10(a - 1) * Pow10(b)) == Pow10(a) * Pow10(b);
    }
  }

  lemma {:induction false} Pow10Monotone(a: nat, b: nat)
    requires a <= b
    ensures Pow10(a) <= Pow10(b)
    ensures a < b ==> Pow10(a) < Pow10(b)
  {
    if a < b {
      Pow10Monotone(a, b - 1);
    }
  }

  lemma {:induction false} ParsePrint(n: nat)
    ensures Parse(Print(n)) == n
  {
    if n < 10 {
      assert Print(n)[..0] == "";
    } else {
      ParsePrint(n / 10);
      assert Print(n)[..|Print(n)| - 1] == Print(n / 10);
    }
  }

  lemma {:induction false} ParseAppend(a: string, b: string)
    requires AllDigits(a) && AllDigits(b)
    ensures AllDigits(a + b)
    ensures Parse(a + b) == Parse(a) * Pow10(|b|) + Parse(b)
  {
    if b == "" {
      assert a + b == a;
    } else {
      var init := b[..|b| - 1];
      ParseAppend(a, init);
      assert (a + b)[..|a + b| - 1] == a + init;
      assert Pow10(|b|) == 10 * Pow10(|init|);
      assert 10 * (Parse(a) * Pow10(|init|)) == Parse(a) * Pow10(|b|);
    }
  }

  lemma {:induction false} ParseZeros(k: nat)
    ensures Parse(Zeros(k)) == 0
  {
    if k != 0 {
      assert Zeros(k)[..k - 1] == Zeros(k - 1);
      ParseZeros(k - 1);
    }
  }

  lemma ParsePadStart(s: string, width: nat)
    requires AllDigits(s)
    ensures AllDigits(PadStart(s, width)) && Parse(PadStart(s, width)) == Parse(s)
  {
    if |s| < width {
      ParseAppend(Zeros(width - |s|), s);
      ParseZeros(width - |s|);
    }
  }

  lemma ParsePadEnd(s: string, width: nat)
    requires AllDigits(s) && |s| <= width
    ensures AllDigits(PadEnd(s, width)) && |PadEnd(s, width)| == width
    ensures Parse(PadEnd(s, width)) == Parse(s) * Pow10(width - |s|)
  {
    ParseAppend(s, Zeros(width - |s|));
    ParseZeros(width - |s|);
    if |s| == width { assert s + Zeros(0) == s; }
  }

  lemma {:induction false} ParseBound(s: string)
    requires AllDigits(s)
    ensures Parse(s) < Pow10(|s|)
  {
    if s != "" {
      ParseBound(s[..|s| - 1]);
    }
  }

  /** The printed form has no leading zero and its length is the number of digits. */
  lemma {:induction false} PrintShape(n: nat)
    ensures n < Pow10(|Print(n)|)
    ensures n > 0 ==> Pow10(|Print(n)| - 1) <= n && Print(n)[0] != '0'
    ensures n == 0 ==> Print(n) == "0"
  {
    if n >= 10 {
      PrintShape(n / 10);
      assert n < 10 * Pow10(|Print(n / 10)|);
    } else {
      assert Pow10(1) == 10 * Pow10(0);
    }
  }

  lemma PrintLengthAtMost(n: nat, k: nat)
    requires k > 0
    ensures |Print(n)| <= k <==> n < Pow10(k)
  {
    PrintShape(n);
    if |Print(n)| <= k {
      Pow10Monotone(|Print(n)|, k);
    } else if n > 0 {
      Pow10Monotone(k, |Print(n)| - 1);
    }
  }

  // ------------------------------------------------- searching for a mark

  predicate Without(s: string, c: char) { forall i :: 0 <= i < |s| ==> s[i] != c }

  /** The part before the first `c`; the whole string when there is none. */
  function Before(s: string, c: char): (r: string)
    ensures |r| <= |s| && s[..|r|] == r && Without(r, c)
    ensures |r| < |s| ==> s[|r|] == c
  {
    if s == "" || s[0] == c then "" else [s[0]] + Before(s[1..], c)
  }

  lemma BeforeUnique(r: string, c: char, rest: string)
    requires Without(r, c) && (rest == "" || rest[0] == c)
    ensures Before(r + rest, c) == r
  {
    var whole := r + rest;
    var b := Before(whole, c);
    assert forall i :: 0 <= i < |r| ==> whole[i] == r[i] && whole[i] != c;
    assert |r| < |whole| ==> whole[|r|] == c;
    assert |b| == |r|;
    assert b == whole[..|b|];
  }

  lemma DigitsWithout(s: string, c: char)
    requires AllDigits(s) && !IsDigit(c)
    ensures Without(s, c)
  {
  }
}
