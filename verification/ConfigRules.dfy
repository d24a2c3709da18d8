/** The value rules of src/engagement/config.ts: patterns, ranges and word lists. */
module ConfigRules {
  import opened Basics
  import opened Digits
  import opened JsText
  import opened JsonValues

  predicate IsControl(c: char) { c as int <= 0x1F || c as int == 0x7F }

  predicate HasControl(s: string) { exists i :: 0 <= i < |s| && IsControl(s[i]) }

  predicate IsLower(c: char) { 'a' <= c <= 'z' }

  predicate IsUpper(c: char) { 'A' <= c <= 'Z' }

  predicate IsHex(c: char) { IsDigit(c) || 'a' <= c <= 'f' || 'A' <= c <= 'F' }

  predicate IsLowerHex(c: char) { IsDigit(c) || 'a' <= c <= 'f' }

  predicate IsWordChar(c: char) { IsLower(c) || IsUpper(c) || IsDigit(c) || c == '_' }

  predicate AllMatch(s: string, p: char -> bool) { forall i :: 0 <= i < |s| ==> p(s[i]) }

  // ------------------------------------------------------------------ values

  predicate IsText(v: Json, max: nat) {
    v.Text? && Trim(v.text) != "" && |v.text| <= max && !HasControl(v.text)
  }

  predicate OneOf(v: Json, allowed: seq<string>) { v.Text? && v.text in allowed }

  predicate IsList(v: Json, min: nat, max: nat) { v.Array? && min <= |v.items| <= max }

  /** A plain object with no key outside `allowed`. */
  predicate OnlyKeys(v: Json, allowed: seq<string>) {
    v.Object? && forall i :: 0 <= i < |v.keys| ==> v.keys[i] in allowed
  }

  predicate IsId(v: Json) {
    v.Text? && 1 <= |v.text| <= 63 && v.text[0] != '-'
    && AllMatch(v.text, (c: char) => IsLower(c) || IsDigit(c) || c == '-')
  }

  predicate IsSourceId(v: Json) {
    v.Text? && 1 <= |v.text| <= 63 && (IsLower(v.text[0]) || IsDigit(v.text[0]))
    && AllMatch(v.text, (c: char) => IsLower(c) || IsDigit(c) || c == '.' || c == '_' || c == '-')
  }

  predicate IsUuid(v: Json) {
    v.Text? && |v.text| == 36
    && forall i :: 0 <= i < 36 ==>
         if i == 8 || i == 13 || i == 18 || i == 23 then v.text[i] == '-' else IsHex(v.text[i])
  }

  function LowerChar(c: char): char { if IsUpper(c) then (c as int + 32) as char else c }

  /** `toLowerCase` on the ASCII text of a UUID. */
  function Lower(s: string): (r: string)
    ensures |r| == |s|
  {
    seq(|s|, i requires 0 <= i < |s| => LowerChar(s[i]))
  }

  predicate IsCurrency(v: Json) { v.Text? && |v.text| == 3 && AllMatch(v.text, IsUpper) }

  predicate IsHash(v: Json) { v.Text? && (v.text == "unknown" || (|v.text| == 64 && AllMatch(v.text, IsLowerHex))) }

  predicate IsSecretRef(v: Json) {
    v.Text? && 1 <= |v.text| <= 128
    && (IsLower(v.text[0]) || IsUpper(v.text[0]) || v.text[0] == '_')
    && AllMatch(v.text, (c: char) => IsWordChar(c) || c == '.' || c == '/' || c == '-')
  }

  predicate IsFileName(s: string) {
    Without(s, '/') && Without(s, '\\') && s != "." && s != ".."
  }

  predicate IsFilePath(v: Json) { v.Text? && v.text != "" && |v.text| <= 1024 && Without(v.text, '\0') }

  const MAX_SAFE := 9007199254740991.0

  predicate IsTokenCount(v: Json) { v.Number? && v.num == v.num.Floor as real && 0.0 <= v.num <= MAX_SAFE }

  predicate IsShare(v: Json) { v.Number? && 0.0 <= v.num <= 1.0 }

  // ---------------------------------------------------------------- decimals

  /** Digits, and optionally a point and digits. */
  predicate IsDecimal(s: string) {
    var whole := Before(s, '.');
    whole != "" && AllDigits(whole) && (|whole| == |s| || (|whole| + 1 < |s| && AllDigits(s[|whole| + 1..])))
  }

  predicate IsSignedDecimal(s: string) { IsDecimal(if s != "" && s[0] == '-' then s[1..] else s) }

  function FractionOf(s: string): string {
    var whole := Before(s, '.');
    if |whole| < |s| then Before(s[|whole| + 1..], '.') else ""
  }

  predicate HasNonZeroDigit(s: string) { exists i :: 0 <= i < |s| && '1' <= s[i] <= '9' }

  predicate AtLeastOneCent(s: string) {
    HasNonZeroDigit(Before(s, '.')) || HasNonZeroDigit(PadEnd(FractionOf(s), 2)[..2])
  }

  predicate IsBudget(v: Json) { v.Text? && |v.text| <= 40 && IsDecimal(v.text) && AtLeastOneCent(v.text) }

  lemma {:induction false} NonZeroDigit(s: string)
    requires AllDigits(s)
    ensures HasNonZeroDigit(s) <==> Parse(s) > 0
  {
    if s != "" {
      var n := |s| - 1;
      NonZeroDigit(s[..n]);
      if HasNonZeroDigit(s) {
        var i :| 0 <= i < |s| && '1' <= s[i] <= '9';
        assert i == n || s[..n][i] == s[i];
      }
      if HasNonZeroDigit(s[..n]) {
        var i :| 0 <= i < n && '1' <= s[..n][i] <= '9';
        assert s[i] == s[..n][i];
      }
      assert DigitValue(s[n]) > 0 ==> '1' <= s[n] <= '9';
    }
  }

  lemma WholeCents(whole: nat, frac: nat, cents: nat, unit: nat, rest: nat)
    requires unit >= 1 && frac == cents * unit + rest && rest < unit
    ensures 100 * (whole * (100 * unit) + frac) >= 100 * unit <==> whole > 0 || cents > 0
  {
    var a, b := whole * unit, cents * unit;
    Regroup(whole, unit);
    Multiple(whole, unit, a);
    Multiple(cents, unit, b);
  }

  lemma Regroup(whole: nat, unit: nat)
    ensures whole * (100 * unit) == 100 * (whole * unit)
  {
  }

  lemma Multiple(k: nat, unit: nat, product: int)
    requires product == k * unit
    ensures if k > 0 then product >= unit else product == 0
  {
  }

  lemma FractionIsTheRest(s: string)
    requires IsDecimal(s)
    ensures var whole := Before(s, '.');
            AllDigits(whole) && AllDigits(FractionOf(s))
            && FractionOf(s) == if |whole| < |s| then s[|whole| + 1..] else ""
  {
    hide Before;
    var whole := Before(s, '.');
    if |whole| < |s| {
      var rest := s[|whole| + 1..];
      DigitsWithout(rest, '.');
      BeforeUnique(rest, '.', "");
      assert rest + "" == rest;
    }
  }

  /** The digit test is exact: it holds just when the amount is worth at least 0.01. */
  lemma AtLeastOneCentMeans(s: string)
    requires IsDecimal(s)
    ensures AllDigits(Before(s, '.')) && AllDigits(FractionOf(s))
    ensures AtLeastOneCent(s) <==>
              100 * Parse(Before(s, '.') + FractionOf(s)) >= Pow10(|FractionOf(s)|)
  {
    hide IsDecimal, HasNonZeroDigit, Parse, PadEnd, Before;
    var whole, frac := Before(s, '.'), FractionOf(s);
    FractionIsTheRest(s);
    ParseAppend(whole, frac);
    NonZeroDigit(whole);
    if |frac| < 2 {
      ParsePadEnd(frac, 2);
      assert PadEnd(frac, 2)[..2] == PadEnd(frac, 2);
      NonZeroDigit(PadEnd(frac, 2));
      ShortFraction(Parse(whole), Parse(frac), |frac|);
    } else {
      var head, tail := frac[..2], frac[2..];
      LongPad(frac);
      assert frac == head + tail;
      ParseAppend(head, tail);
      ParseBound(tail);
      NonZeroDigit(head);
      Pow10Adds(2, |tail|);
      assert Pow10(2) == 100;
      WholeCents(Parse(whole), Parse(frac), Parse(head), Pow10(|tail|), Parse(tail));
      assert Pow10(|frac|) == 100 * Pow10(|tail|);
    }
  }

  lemma LongPad(frac: string)
    requires |frac| >= 2
    ensures PadEnd(frac, 2) == frac
  {
  }

  lemma ShortFraction(whole: nat, frac: nat, n: nat)
    requires n < 2
    ensures 100 * (whole * Pow10(n) + frac) >= Pow10(n) <==> whole > 0 || frac * Pow10(2 - n) > 0
  {
    assert Pow10(0) == 1 && Pow10(1) == 10 && Pow10(2) == 100;
  }

  // -------------------------------------------------------------- timestamps

  function NumberOf(s: string): nat { if AllDigits(s) then Parse(s) else 0 }

  predicate IsLeap(y: nat) { y % 4 == 0 && (y % 100 != 0 || y % 400 == 0) }

  /** The last day of a month; the runtime reads the years 0 to 99 as 1900 to 1999. */
  function DaysInMonth(y: nat, mo: nat): nat {
    var year := if y <= 99 then 1900 + y else y;
    if mo == 2 then (if IsLeap(year) then 29 else 28)
    else if mo == 4 || mo == 6 || mo == 9 || mo == 11 then 30
    else 31
  }

  predicate IsZone(s: string) {
    s == "Z" || (|s| == 6 && (s[0] == '+' || s[0] == '-') && AllDigits(s[1..3]) && s[3] == ':' && AllDigits(s[4..]))
  }

  function SkipDigits(s: string): string {
    if s != "" && IsDigit(s[0]) then SkipDigits(s[1..]) else s
  }

  predicate IsTimeTail(s: string) {
    if |s| >= 2 && s[0] == '.' && IsDigit(s[1]) then IsZone(SkipDigits(s[1..])) else IsZone(s)
  }

  predicate IsIsoShape(s: string) {
    && |s| >= 20
    && AllDigits(s[..4]) && s[4] == '-' && AllDigits(s[5..7]) && s[7] == '-' && AllDigits(s[8..10])
    && s[10] == 'T' && AllDigits(s[11..13]) && s[13] == ':' && AllDigits(s[14..16]) && s[16] == ':'
    && AllDigits(s[17..19]) && IsTimeTail(s[19..])
  }

  predicate IsCalendarTime(s: string)
    requires IsIsoShape(s)
  {
    var y, mo, d := NumberOf(s[..4]), NumberOf(s[5..7]), NumberOf(s[8..10]);
    1 <= mo <= 12 && 1 <= d <= DaysInMonth(y, mo)
    && NumberOf(s[11..13]) <= 23 && NumberOf(s[14..16]) <= 59 && NumberOf(s[17..19]) <= 59
  }

  /** The runtime's own date parser is a parameter. */
  function Timestamp(parseDate: string -> Option<int>, v: Json): Option<int> {
    if v.Text? && IsIsoShape(v.text) && IsCalendarTime(v.text) then parseDate(v.text) else None
  }
}
