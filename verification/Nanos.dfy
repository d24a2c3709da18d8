/** Exact money in nano-units: `toNanos` (on strings) and `fmtNanos` of src/evidence/money.ts. */
module Nanos {
  import opened Basics
  import opened Digits

  const NANOS: nat := 1_000_000_000

  /** The digits of an accepted amount: 1 to 12 before the point, none or 1 to 9 after it. */
  datatype Amount = Amount(negative: bool, whole: string, frac: string)

  predicate Proper(a: Amount) {
    && AllDigits(a.whole) && 1 <= |a.whole| <= 12
    && AllDigits(a.frac) && |a.frac| <= 9
  }

  /** An optional minus, 1 to 12 digits, and optionally a point and 1 to 9 digits. */
  function Read(s: string): Option<Amount> {
    var negative := s != "" && s[0] == '-';
    var body := if negative then s[1..] else s;
    var whole := Before(body, '.');
    var frac := if |whole| == |body| then "" else body[|whole| + 1..];
    var a := Amount(negative, whole, frac);
    if Proper(a) && (|whole| == |body| || frac != "") then Some(a) else None
  }

  function Magnitude(a: Amount): nat
    requires Proper(a)
  {
    ParsePadEnd(a.frac, 9);
    Parse(a.whole) * NANOS + Parse(PadEnd(a.frac, 9))
  }

  function ToNanos(s: string): Option<int> {
    match Read(s)
    case None => None
    case Some(a) => Some(if a.negative then -(Magnitude(a) as int) else Magnitude(a))
  }

  function StripZeros(s: string): string {
    if s != "" && s[|s| - 1] == '0' then StripZeros(s[..|s| - 1]) else s
  }

  function FracText(m: nat): string { StripZeros(PadStart(Print(m % NANOS), 9)) }

  function FmtNanos(n: int): string {
    var frac := FracText(Abs(n));
    (if n < 0 then "-" else "") + (Print(Abs(n) / NANOS) + if frac != "" then "." + frac else "")
  }

  // --------------------------------------------------------- fraction digits

  lemma {:induction false} StripThenPad(s: string, width: nat)
    requires AllDigits(s) && |s| <= width
    ensures AllDigits(StripZeros(s)) && |StripZeros(s)| <= |s|
    ensures PadEnd(StripZeros(s), width) == s + Zeros(width - |s|)
  {
    if s != "" && s[|s| - 1] == '0' {
      var init := s[..|s| - 1];
      StripThenPad(init, width);
      assert s == init + ['0'];
      assert Zeros(width - |init|) == ['0'] + Zeros(width - |s|);
    } else if |s| == width {
      assert s + Zeros(0) == s;
    }
  }

  lemma {:induction false} StripEnds(s: string)
    ensures StripZeros(s) != "" ==> StripZeros(s)[|StripZeros(s)| - 1] != '0'
  {
    if s != "" && s[|s| - 1] == '0' {
      StripEnds(s[..|s| - 1]);
    }
  }

  lemma PowersNineAndTwelve()
    ensures Pow10(9) == NANOS && Pow10(12) == 1_000_000_000_000
  {
    assert Pow10(3) == 1000;
    Pow10Adds(3, 3);
    Pow10Adds(6, 3);
    Pow10Adds(9, 3);
  }

  lemma FractionDigits(m: nat)
    ensures var f := FracText(m);
            && AllDigits(f) && |f| <= 9
            && AllDigits(PadEnd(f, 9)) && Parse(PadEnd(f, 9)) == m % NANOS
            && (f != "" ==> f[|f| - 1] != '0')
  {
    hide Parse, Print, PadStart, PadEnd, StripZeros;
    var r := m % NANOS;
    PowersNineAndTwelve();
    PrintLengthAtMost(r, 9);
    ParsePrint(r);
    ParsePadStart(Print(r), 9);
    PaddedToNine(Print(r));
    StripThenPad(PadStart(Print(r), 9), 9);
    StripEnds(PadStart(Print(r), 9));
    assert PadStart(Print(r), 9) + Zeros(0) == PadStart(Print(r), 9);
  }

  lemma PaddedToNine(digits: string)
    requires |digits| <= 9
    ensures |PadStart(digits, 9)| == 9
  {
  }

  // ------------------------------------------------------------- round trip

  /** The body splits at its point. */
  lemma SplitBody(whole: string, frac: string)
    requires AllDigits(whole) && whole != ""
    ensures var body := whole + if frac != "" then "." + frac else "";
            && body != "" && body[0] != '-' && Before(body, '.') == whole
            && (if frac != "" then |whole| < |body| && body[|whole| + 1..] == frac else |whole| == |body|)
  {
    hide AllDigits, Before, Without;
    var tail := if frac != "" then "." + frac else "";
    FirstIsDigit(whole);
    assert (whole + tail)[0] == whole[0];
    DigitsWithout(whole, '.');
    BeforeUnique(whole, '.', tail);
    if frac != "" {
      assert (whole + tail)[|whole| + 1..] == tail[1..] == frac;
    }
  }

  lemma ReadSigned(negative: bool, body: string, whole: string, frac: string)
    requires body != "" && body[0] != '-' && Before(body, '.') == whole
    requires if frac != "" then |whole| < |body| && body[|whole| + 1..] == frac else |whole| == |body|
    ensures Read((if negative then "-" else "") + body)
            == if Proper(Amount(negative, whole, frac)) then Some(Amount(negative, whole, frac)) else None
  {
    hide AllDigits, Before, Without, Proper;
    if negative {
      assert ("-" + body)[1..] == body;
    } else {
      assert "" + body == body;
    }
  }

  lemma ReadBody(negative: bool, whole: string, frac: string)
    requires AllDigits(whole) && whole != "" && AllDigits(frac)
    ensures var body := whole + if frac != "" then "." + frac else "";
            Read((if negative then "-" else "") + body)
            == if Proper(Amount(negative, whole, frac)) then Some(Amount(negative, whole, frac)) else None
  {
    hide AllDigits, Before, Without, Proper, Read;
    SplitBody(whole, frac);
    ReadSigned(negative, whole + if frac != "" then "." + frac else "", whole, frac);
  }

  lemma FirstIsDigit(s: string)
    requires AllDigits(s) && s != ""
    ensures s[0] != '-'
  {
  }

  /** Printing and reading back is the identity exactly on amounts below 10^12 units; beyond, it is refused. */
  lemma RoundTripExactlyWhen(n: int)
    ensures ToNanos(FmtNanos(n)) == if Abs(n) < 1_000_000_000_000 * NANOS then Some(n) else None
  {
    hide AllDigits, Parse, Print, FracText, PadEnd, Read;
    var m := Abs(n);
    var whole, frac := Print(m / NANOS), FracText(m);
    PrintLengthAtMost(m / NANOS, 12);
    PowersNineAndTwelve();
    FractionDigits(m);
    ReadBody(n < 0, whole, frac);
    ParsePrint(m / NANOS);
    Split(m);
  }

  lemma Split(m: nat)
    ensures (m / NANOS) * NANOS + m % NANOS == m
    ensures m / NANOS < 1_000_000_000_000 <==> m < 1_000_000_000_000 * NANOS
  {
  }

  // ------------------------------------------------------- meaning of strings

  /** The rational number an amount denotes. */
  function Denotes(a: Amount): real
    requires Proper(a)
  {
    ParseAppend(a.whole, a.frac);
    var r := Parse(a.whole + a.frac) as real / Pow10(|a.frac|) as real;
    if a.negative then -r else r
  }

  lemma Scale(w: nat, f: nat, p: nat, q: nat)
    requires p >= 1 && q >= 1 && p * q == NANOS
    ensures (w * NANOS + f * q) as real / NANOS as real == (w * p + f) as real / p as real
  {
    var x, y, z := (w * p + f) as real, p as real, q as real;
    assert w * NANOS + f * q == (w * p + f) * q;
    assert (w * NANOS + f * q) as real == x * z && NANOS as real == y * z;
    var ratio := x / y;
    assert ratio * y == x;
    assert ratio * (y * z) == x * z;
  }

  /** Nano-units are exact: nothing the pattern accepts is rounded. */
  lemma NanosAreExact(s: string)
    requires Read(s).Some?
    ensures ToNanos(s).Some? && ToNanos(s).value as real / NANOS as real == Denotes(Read(s).value)
  {
    hide AllDigits, Parse, PadEnd, Read, Pow10;
    var a := Read(s).value;
    ReadProper(s);
    var p, q := Pow10(|a.frac|), Pow10(9 - |a.frac|);
    PowersNineAndTwelve();
    Pow10Adds(|a.frac|, 9 - |a.frac|);
    ParsePadEnd(a.frac, 9);
    ParseAppend(a.whole, a.frac);
    Scale(Parse(a.whole), Parse(a.frac), p, q);
    Negate(Magnitude(a));
  }

  lemma ReadProper(s: string)
    ensures Read(s).Some? ==> Proper(Read(s).value)
  {
  }

  lemma Negate(m: nat)
    ensures (-(m as int)) as real / NANOS as real == -(m as real / NANOS as real)
  {
  }

  lemma SameQuotient(x: int, y: int)
    ensures x as real / NANOS as real == y as real / NANOS as real <==> x == y
  {
    var n := NANOS as real;
    assert x as real == (x as real / n) * n && y as real == (y as real / n) * n;
  }

  lemma MagnitudeBound(a: Amount)
    requires Proper(a)
    ensures Magnitude(a) < 1_000_000_000_000 * NANOS
  {
    hide Parse, PadEnd;
    PowersNineAndTwelve();
    ParsePadEnd(a.frac, 9);
    ParseBound(a.whole);
    ParseBound(PadEnd(a.frac, 9));
    Pow10Monotone(|a.whole|, 12);
  }

  /** Every accepted string is reprinted as an accepted string of the same value; reprinting is stable. */
  lemma Reprinted(s: string)
    requires ToNanos(s).Some?
    ensures ToNanos(FmtNanos(ToNanos(s).value)) == ToNanos(s)
  {
    hide Read, FmtNanos;
    ReadProper(s);
    MagnitudeBound(Read(s).value);
    RoundTripExactlyWhen(ToNanos(s).value);
  }

  /** Two accepted strings are printed alike exactly when they denote the same rational number. */
  lemma PrintedAlikeExactlyWhenEqual(a: string, b: string)
    requires Read(a).Some? && Read(b).Some?
    ensures Proper(Read(a).value) && Proper(Read(b).value)
    ensures FmtNanos(ToNanos(a).value) == FmtNanos(ToNanos(b).value) <==> Denotes(Read(a).value) == Denotes(Read(b).value)
  {
    hide Read, FmtNanos, Denotes;
    ReadProper(a);
    ReadProper(b);
    NanosAreExact(a);
    NanosAreExact(b);
    Reprinted(a);
    Reprinted(b);
    SameQuotient(ToNanos(a).value, ToNanos(b).value);
  }

  /** The printed form: no leading zero, no trailing zero in a fraction, no minus on zero. */
  lemma PrintedIsCanonical(n: int)
    ensures var whole, frac := Print(Abs(n) / NANOS), FracText(Abs(n));
            && (|whole| > 1 ==> whole[0] != '0')
            && (frac != "" ==> frac[|frac| - 1] != '0')
            && (FmtNanos(n)[0] == '-' <==> n < 0)
  {
    hide AllDigits, FracText, Print;
    PrintShape(Abs(n) / NANOS);
    FractionDigits(Abs(n));
    PrintedHead(Abs(n) / NANOS);
    ZeroPrints();
  }

  lemma PrintedHead(m: nat)
    ensures Print(m)[0] != '-'
  {
    hide Print;
    FirstIsDigit(Print(m));
  }

  lemma ZeroPrints()
    ensures |Print(0)| == 1
  {
  }

  // ---------------------------------------------------------------- grammar

  /** The parts of an amount: 1 to 12 digits, and after a point 1 to 9 more. */
  predicate Spelled(s: string, negative: bool, whole: string, frac: string) {
    && s == (if negative then "-" else "") + (whole + if frac != "" then "." + frac else "")
    && AllDigits(whole) && 1 <= |whole| <= 12 && AllDigits(frac) && |frac| <= 9
  }

  lemma BodySplits(body: string)
    ensures var whole := Before(body, '.');
            var frac := if |whole| == |body| then "" else body[|whole| + 1..];
            |whole| == |body| || frac != "" ==> body == whole + if frac != "" then "." + frac else ""
  {
    var whole := Before(body, '.');
    hide Without, Before;
    if |whole| < |body| {
      assert body == whole + ("." + body[|whole| + 1..]);
    } else {
      assert body == whole + "";
    }
  }

  lemma ReadSplits(s: string)
    requires Read(s).Some?
    ensures var a := Read(s).value; Spelled(s, a.negative, a.whole, a.frac)
  {
    hide AllDigits, Without, Before;
    BodySplits(if s != "" && s[0] == '-' then s[1..] else s);
    SignSplits(s);
  }

  lemma SignSplits(s: string)
    ensures s == (if s != "" && s[0] == '-' then "-" else "") + if s != "" && s[0] == '-' then s[1..] else s
  {
  }

  /** An amount is accepted exactly when it is so spelled, and then read as spelled. */
  lemma AcceptedExactlyWhenSpelled(s: string)
    ensures ToNanos(s).Some? <==> exists negative, whole, frac :: Spelled(s, negative, whole, frac)
    ensures forall negative, whole, frac :: Spelled(s, negative, whole, frac) ==>
              Read(s) == Some(Amount(negative, whole, frac))
  {
    hide Read, AllDigits, Magnitude;
    if Read(s).Some? {
      ReadSplits(s);
    }
    forall negative, whole, frac | Spelled(s, negative, whole, frac)
      ensures Read(s) == Some(Amount(negative, whole, frac))
    {
      ReadBody(negative, whole, frac);
    }
  }
}
