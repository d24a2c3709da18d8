/**
 Decimal strings as scaled integers: `scaling`, `sumScaled`, `toScaled` and `convertWithRate`
 in src/attribution/allocation.ts.
 */
module ScaledMoney {
  import opened Basics
  import opened Digits
  import opened Sequences

  // ------------------------------------------------ JavaScript string pieces

  /** `s.slice(0, end)`; a negative `end` counts from the back and stops at the start. */
  function SliceTo(s: string, end: int): string {
    if end >= |s| then s
    else if end >= 0 then s[..end]
    else if |s| + end >= 0 then s[..|s| + end]
    else ""
  }

  /** `s.slice(start)`, with the same rule for a negative `start`. */
  function SliceFrom(s: string, start: int): string {
    if start >= |s| then ""
    else if start >= 0 then s[start..]
    else if |s| + start >= 0 then s[|s| + start..]
    else s
  }

  /** `BigInt(s)` on strings of digits; every other string is a SyntaxError here. */
  function BigIntOf(s: string): Option<nat> {
    if s != "" && AllDigits(s) then Some(Parse(s)) else None
  }

  // ------------------------------------------------------------ the functions

  /** The number of characters after the first point. */
  function Scaling(amount: string): nat {
    var whole := Before(amount, '.');
    if |whole| == |amount| then 0 else |amount| - |whole| - 1
  }

  function Body(amount: string): string {
    if amount != "" && amount[0] == '-' then amount[1..] else amount
  }

  function WholePart(body: string): string { Before(body, '.') }

  /** The piece between the first and the second point, "" when there is no point. */
  function FracPart(body: string): string {
    var whole := Before(body, '.');
    if |whole| == |body| then "" else Before(body[|whole| + 1..], '.')
  }

  function Signed(negative: bool, v: int): int { if negative then -v else v }

  function ToScaled(amount: string, scale: nat): Option<int> {
    var body := Body(amount);
    var whole := if WholePart(body) == "" then "0" else WholePart(body);
    match BigIntOf(whole + PadEnd(FracPart(body), scale))
    case None => None
    case Some(v) => Some(Signed(amount != "" && amount[0] == '-', v))
  }

  function PrintedWhole(digits: string, scale: nat): string {
    var whole := SliceTo(digits, |digits| - scale);
    if whole == "" then "0" else whole
  }

  function PrintedFrac(digits: string, scale: nat): string {
    if scale > 0 then "." + PadStart(SliceFrom(digits, |digits| - scale), scale) else ""
  }

  function SumScaled(values: seq<int>, scale: nat): string {
    var total := Sum(values);
    var digits := Print(Abs(total));
    (if total < 0 then "-" else "") + PrintedWhole(digits, scale) + PrintedFrac(digits, scale)
  }

  function Printed(v: int, scale: nat): string { SumScaled([v], scale) }

  function ConvertWithRate(amount: string, rate: string): Option<string> {
    match (ToScaled(amount, Scaling(amount)), ToScaled(rate, Scaling(rate)))
    case (Some(a), Some(r)) => Some(SumScaled([a * r], Scaling(amount) + Scaling(rate)))
    case _ => None
  }

  // ------------------------------------------------ the reader on its grammar

  /** The repository's money convention: an optional sign, digits, and optionally a point and digits. */
  datatype Decimal = Decimal(negative: bool, whole: string, point: bool, frac: string)

  predicate WellFormed(d: Decimal) {
    AllDigits(d.whole) && AllDigits(d.frac) && (!d.point ==> d.frac == "" && d.whole != "")
  }

  function Text(d: Decimal): string {
    (if d.negative then "-" else "") + d.whole + if d.point then "." + d.frac else ""
  }

  function Tail(d: Decimal): string { if d.point then "." + d.frac else "" }

  lemma TextBody(d: Decimal)
    requires WellFormed(d)
    ensures Body(Text(d)) == d.whole + Tail(d)
    ensures d.negative <==> Text(d) != "" && Text(d)[0] == '-'
  {
    assert Text(d) == (if d.negative then "-" else "") + (d.whole + Tail(d));
    if !d.negative && d.whole != "" {
      assert IsDigit(d.whole[0]);
    }
  }

  lemma BodyPieces(d: Decimal)
    requires WellFormed(d)
    ensures WholePart(d.whole + Tail(d)) == d.whole && FracPart(d.whole + Tail(d)) == d.frac
  {
    hide Before, AllDigits;
    var body := d.whole + Tail(d);
    DigitsWithout(d.whole, '.');
    BeforeUnique(d.whole, '.', Tail(d));
    if d.point {
      var rest := body[|d.whole| + 1..];
      assert rest == d.frac;
      DigitsWithout(d.frac, '.');
      BeforeAll(rest, '.');
    }
  }

  lemma BeforeAll(s: string, c: char)
    requires Without(s, c)
    ensures Before(s, c) == s
  {
    BeforeUnique(s, c, "");
    assert s + "" == s;
  }

  lemma TextPieces(d: Decimal)
    requires WellFormed(d)
    ensures d.negative <==> Text(d) != "" && Text(d)[0] == '-'
    ensures WholePart(Body(Text(d))) == d.whole && FracPart(Body(Text(d))) == d.frac
    ensures Scaling(Text(d)) == |d.frac|
  {
    hide Before, Body, WholePart, FracPart;
    TextBody(d);
    BodyPieces(d);
    var signed := (if d.negative then "-" else "") + d.whole;
    assert Text(d) == signed + Tail(d);
    assert Without(signed, '.');
    BeforeUnique(signed, '.', Tail(d));
  }

  /** The integer a decimal denotes at its own scale. */
  function Unscaled(d: Decimal): int
    requires WellFormed(d)
  {
    Signed(d.negative, Parse(d.whole + d.frac))
  }

  lemma LeadingZero(s: string)
    requires AllDigits(s)
    ensures AllDigits("0" + s) && Parse("0" + s) == Parse(s)
  {
    ParseAppend("0", s);
    assert "0"[..0] == "";
  }

  lemma PaddedValue(whole: string, frac: string, scale: nat)
    requires AllDigits(whole) && AllDigits(frac) && |frac| <= scale
    ensures AllDigits(whole + PadEnd(frac, scale)) && AllDigits(whole + frac)
    ensures Parse(whole + PadEnd(frac, scale)) == Parse(whole + frac) * Pow10(scale - |frac|)
  {
    var zeros := Zeros(scale - |frac|);
    ParseAppend(whole + frac, zeros);
    ParseZeros(|zeros|);
    assert whole + PadEnd(frac, scale) == (whole + frac) + zeros;
  }

  /** Reading at a wider scale multiplies by the power of ten between the scales: the value is unchanged. */
  lemma ReadsTheDecimal(d: Decimal, scale: nat)
    requires WellFormed(d) && |d.frac| <= scale
    ensures ToScaled(Text(d), scale) == Some(Unscaled(d) * Pow10(scale - |d.frac|))
  {
    hide Parse, Pow10, Scaling, Text, Body, WholePart, FracPart, PadEnd;
    TextPieces(d);
    PaddedValue(d.whole, d.frac, scale);
    var padded := PadEnd(d.frac, scale);
    if d.whole == "" {
      assert d.whole + padded == padded;
      LeadingZero(padded);
    }
    NegatedProduct(Parse(d.whole + d.frac), Pow10(scale - |d.frac|));
  }

  // --------------------------------------------- where printing is faithful

  /** The printer is faithful to `v` at `scale`: it never passes a negative index that selects digits. */
  predicate Faithful(v: int, scale: nat) {
    var length := |Print(Abs(v))|;
    length >= scale || scale >= 2 * length
  }

  function PrintedParts(v: int, scale: nat): Decimal {
    var digits := Print(Abs(v));
    Decimal(v < 0, PrintedWhole(digits, scale), scale > 0, PadStart(SliceFrom(digits, |digits| - scale), scale))
  }

  lemma PrintedIsDecimal(v: int, scale: nat)
    ensures scale > 0 ==> WellFormed(PrintedParts(v, scale)) && Text(PrintedParts(v, scale)) == Printed(v, scale)
    ensures scale > 0 ==> |PrintedParts(v, scale).frac| == scale
    ensures scale == 0 ==> Printed(v, scale) == Text(Decimal(v < 0, Print(Abs(v)), false, ""))
  {
    hide Print, PadStart, Sum, SliceFrom, PrintedWhole;
    SumSingleton(v);
    var digits := Print(Abs(v));
    SliceLengths(digits, scale);
    if scale > 0 {
      ParsePadStart(SliceFrom(digits, |digits| - scale), scale);
      PadStartWidth(SliceFrom(digits, |digits| - scale), scale);
    }
  }

  lemma PadStartWidth(s: string, width: nat)
    requires |s| <= width
    ensures |PadStart(s, width)| == width
  {
  }

  lemma SliceLengths(digits: string, scale: nat)
    requires AllDigits(digits) && digits != ""
    ensures AllDigits(PrintedWhole(digits, scale)) && AllDigits(SliceFrom(digits, |digits| - scale))
    ensures |SliceFrom(digits, |digits| - scale)| <= scale
    ensures scale == 0 ==> PrintedWhole(digits, scale) == digits
    ensures |digits| > scale ==>
              PrintedWhole(digits, scale) == digits[..|digits| - scale]
    ensures |digits| >= scale ==> SliceFrom(digits, |digits| - scale) == digits[|digits| - scale..]
    ensures |digits| == scale || scale >= 2 * |digits| ==> PrintedWhole(digits, scale) == "0"
    ensures scale >= 2 * |digits| ==> SliceFrom(digits, |digits| - scale) == digits
    ensures |digits| < scale < 2 * |digits| ==>
              PrintedWhole(digits, scale) == digits[..2 * |digits| - scale]
              && SliceFrom(digits, |digits| - scale) == digits[2 * |digits| - scale..]
  {
  }

  /** The number that the printed whole and fraction digits denote together. */
  function ReadBackValue(digits: string, scale: nat): nat
    requires AllDigits(digits)
  {
    Parse(PrintedWhole(digits, scale)) * Pow10(scale) + Parse(SliceFrom(digits, |digits| - scale))
  }

  lemma UnitScale(k: int)
    ensures k * Pow10(0) == k
  {
  }

  lemma ReadBackIsRead(v: int, scale: nat)
    ensures ToScaled(Printed(v, scale), scale) == Some(Signed(v < 0, ReadBackValue(Print(Abs(v)), scale)))
  {
    hide Parse, Pow10, ToScaled, Printed, Print, PadStart, SliceFrom, PrintedWhole;
    var digits := Print(Abs(v));
    var f := SliceFrom(digits, |digits| - scale);
    PrintedIsDecimal(v, scale);
    SliceLengths(digits, scale);
    ParsePadStart(f, scale);
    if scale > 0 {
      var d := PrintedParts(v, scale);
      ReadsTheDecimal(d, scale);
      ParseAppend(d.whole, d.frac);
      UnitScale(Unscaled(d));
    } else {
      var d := Decimal(v < 0, digits, false, "");
      ReadsTheDecimal(d, 0);
      ParseAppend(digits, "");
      UnitScale(Unscaled(d));
      assert f == "";
      ParseZeros(0);
      assert Zeros(0) == "";
    }
  }

  lemma SplitValue(digits: string, cut: nat)
    requires AllDigits(digits) && cut <= |digits|
    ensures Parse(digits) == Parse(digits[..cut]) * Pow10(|digits| - cut) + Parse(digits[cut..])
  {
    assert digits == digits[..cut] + digits[cut..];
    ParseAppend(digits[..cut], digits[cut..]);
  }

  lemma ZeroDigit()
    ensures Parse("0") == 0
  {
    assert "0"[..0] == "";
  }

  lemma LongDigits(digits: string, scale: nat)
    requires AllDigits(digits) && digits != "" && |digits| >= scale
    ensures ReadBackValue(digits, scale) == Parse(digits)
  {
    hide Pow10, Parse, SliceFrom, PrintedWhole;
    ZeroDigit();
    SliceLengths(digits, scale);
    SplitValue(digits, |digits| - scale);
    if |digits| == scale {
      ParseZeros(0);
      assert Zeros(0) == digits[..0];
    }
  }

  lemma ShortDigits(digits: string, scale: nat)
    requires AllDigits(digits) && digits != "" && scale >= 2 * |digits|
    ensures ReadBackValue(digits, scale) == Parse(digits)
  {
    hide Pow10, Parse, SliceFrom, PrintedWhole;
    ZeroDigit();
    SliceLengths(digits, scale);
  }

  lemma UnfaithfulDigits(digits: string, scale: nat)
    requires AllDigits(digits) && |digits| < scale < 2 * |digits| && digits[0] != '0'
    ensures ReadBackValue(digits, scale) > Parse(digits)
  {
    hide Pow10, Parse, SliceFrom, PrintedWhole;
    var cut := 2 * |digits| - scale;
    SliceLengths(digits, scale);
    SplitValue(digits, cut);
    LeadingDigitPositive(digits[..cut]);
    Pow10Monotone(|digits| - cut, scale);
    StrictProduct(Parse(digits[..cut]), Pow10(|digits| - cut), Pow10(scale));
  }

  /** Outside the faithful region the printed text denotes a number of larger magnitude and the same sign. */
  lemma ReadBackError(v: int, scale: nat)
    ensures var r := Signed(v < 0, ReadBackValue(Print(Abs(v)), scale));
            if Faithful(v, scale) then r == v else if v > 0 then r > v else v < 0 && r < v
  {
    var digits := Print(Abs(v));
    hide Parse, Print, ReadBackValue;
    PrintShape(Abs(v));
    ParsePrint(Abs(v));
    if Faithful(v, scale) {
      if |digits| >= scale {
        LongDigits(digits, scale);
      } else {
        ShortDigits(digits, scale);
      }
    } else {
      UnfaithfulDigits(digits, scale);
    }
  }

  /** By how much a printed number is off when it is read again: nothing where the printer is faithful, and else
      the leading digits are read `scale` places too high instead of `scale - length`. */
  function Misprint(v: int, scale: nat): int {
    if Faithful(v, scale) then 0
    else
      var low := Pow10(scale - |Print(Abs(v))|);
      Signed(v < 0, Abs(v) / low * (Pow10(scale) - low))
  }

  lemma LeadingDigits(digits: string, cut: nat)
    requires AllDigits(digits) && cut <= |digits|
    ensures Parse(digits) / Pow10(|digits| - cut) == Parse(digits[..cut])
  {
    SplitValue(digits, cut);
    ParseBound(digits[cut..]);
    QuotientIs(Parse(digits), Parse(digits[..cut]), Pow10(|digits| - cut), Parse(digits[cut..]));
  }

  lemma QuotientIs(n: nat, q: nat, d: nat, r: nat)
    requires n == q * d + r && r < d
    ensures n / d == q
  {
    var k := n / d;
    assert n == k * d + n % d;
    assert (q - k) * d == n % d - r;
    NonZeroMultiple(q - k, d);
  }

  lemma NonZeroMultiple(k: int, d: nat)
    ensures k >= 1 ==> k * d >= d
    ensures k <= -1 ==> k * d <= -(d as int)
  {
  }

  lemma MisprintedDigits(digits: string, scale: nat)
    requires AllDigits(digits) && |digits| < scale < 2 * |digits|
    ensures var low := Pow10(scale - |digits|);
            ReadBackValue(digits, scale) == Parse(digits) + Parse(digits) / low * (Pow10(scale) - low)
  {
    hide Pow10, Parse, SliceFrom, PrintedWhole;
    var cut := 2 * |digits| - scale;
    SliceLengths(digits, scale);
    SplitValue(digits, cut);
    LeadingDigits(digits, cut);
    Spread(Parse(digits[..cut]), Pow10(scale), Pow10(|digits| - cut));
  }

  lemma Spread(k: int, a: int, b: int)
    ensures k * a == k * b + k * (a - b)
  {
  }

  /** What is read back is the printed number plus its misprint. */
  lemma MisprintIsTheError(v: int, scale: nat)
    ensures ToScaled(Printed(v, scale), scale) == Some(v + Misprint(v, scale))
    ensures Misprint(v, scale) == 0 <==> Faithful(v, scale)
    ensures v >= 0 ==> Misprint(v, scale) >= 0
    ensures v <= 0 ==> Misprint(v, scale) <= 0
    ensures scale <= 2 ==> Faithful(v, scale)
  {
    hide Pow10, Parse, Print, ReadBackValue, ToScaled, Printed;
    var digits := Print(Abs(v));
    ReadBackIsRead(v, scale);
    ReadBackError(v, scale);
    ParsePrint(Abs(v));
    if !Faithful(v, scale) {
      MisprintedDigits(digits, scale);
    }
  }

  lemma StrictProduct(k: int, a: int, b: int)
    requires k > 0 && a < b
    ensures k * a < k * b
  {
  }

  lemma {:induction false} LeadingDigitPositive(s: string)
    requires AllDigits(s) && s != "" && s[0] != '0'
    ensures Parse(s) > 0
  {
    if |s| > 1 {
      LeadingDigitPositive(s[..|s| - 1]);
    }
  }

  /** Printing then reading returns the number exactly when it has at least `scale` digits,
      or at most half as many. */
  lemma RoundTripExactlyWhen(v: int, scale: nat)
    ensures ToScaled(Printed(v, scale), scale) == Some(v) <==> Faithful(v, scale)
  {
    ReadBackIsRead(v, scale);
    ReadBackError(v, scale);
  }

  /** Up to two decimals (cents) every number survives printing; from three on, some number does not. */
  lemma CentsRoundTrip(scale: nat)
    ensures (forall v :: ToScaled(Printed(v, scale), scale) == Some(v)) <==> scale <= 2
  {
    forall v: int
      ensures scale <= 2 ==> ToScaled(Printed(v, scale), scale) == Some(v)
    {
      RoundTripExactlyWhen(v, scale);
    }
    if scale > 2 {
      var v := Pow10(scale - 2);
      PrintShape(v);
      PrintLengthAtMost(v, scale - 2);
      Pow10Monotone(scale - 2, scale - 1);
      PrintLengthAtMost(v, scale - 1);
      assert |Print(v)| == scale - 1;
      RoundTripExactlyWhen(v, scale);
      assert ToScaled(Printed(v, scale), scale) != Some(v);
    }
  }

  /** Twelve thousandths print as one and two thousandths. */
  lemma TwelveThousandths()
    ensures Printed(12, 3) == "1.002"
  {
    SumSingleton(12);
    assert Print(1) == "1" && Print(12) == "12";
    assert PadStart("2", 3) == "002";
  }

  lemma OwnScale(d: Decimal)
    requires WellFormed(d)
    ensures ToScaled(Text(d), Scaling(Text(d))) == Some(Unscaled(d)) && Scaling(Text(d)) == |d.frac|
  {
    hide ToScaled, Unscaled, Text, Scaling, WellFormed;
    TextPieces(d);
    ReadsTheDecimal(d, |d.frac|);
    UnitScale(Unscaled(d));
  }

  /** A conversion is the exact product of the two decimals exactly when the product prints faithfully. */
  lemma ConversionExactlyWhen(amount: Decimal, rate: Decimal)
    requires WellFormed(amount) && WellFormed(rate)
    ensures var product := Unscaled(amount) * Unscaled(rate);
            var scale := |amount.frac| + |rate.frac|;
            var text := ConvertWithRate(Text(amount), Text(rate));
            text.Some? && (ToScaled(text.value, scale) == Some(product) <==> Faithful(product, scale))
  {
    hide ToScaled, Unscaled, Text, Scaling, SumScaled, Faithful, WellFormed;
    OwnScale(amount);
    OwnScale(rate);
    RoundTripExactlyWhen(Unscaled(amount) * Unscaled(rate), |amount.frac| + |rate.frac|);
  }
}
