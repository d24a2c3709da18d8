/**
 The texts an engagement configuration may hold (src/engagement/config.ts), each described by how it is put together,
 and that the validator's patterns accept exactly these.
 */
module ConfigTexts {
  import opened ConfigRules
  import opened Digits
  import opened JsText
  import opened JsonValues

  predicate Lowercase(c: char) { 97 <= c as int <= 122 }

  predicate Uppercase(c: char) { 65 <= c as int <= 90 }

  predicate Figure(c: char) { 48 <= c as int <= 57 }

  /** No control character, so one line. */
  predicate OneLine(s: string, max: nat) {
    |s| <= max && forall i :: 0 <= i < |s| ==> 32 <= s[i] as int && s[i] as int != 127
  }

  /** One line with something on it. */
  predicate Line(s: string, max: nat) { OneLine(s, max) && exists i :: 0 <= i < |s| && !White(s[i]) }

  predicate Slug(s: string) {
    && 1 <= |s| <= 63 && (Lowercase(s[0]) || Figure(s[0]))
    && forall i :: 0 <= i < |s| ==> Lowercase(s[i]) || Figure(s[i]) || s[i] == '-'
  }

  predicate SourceName(s: string) {
    && 1 <= |s| <= 63 && (Lowercase(s[0]) || Figure(s[0]))
    && forall i :: 0 <= i < |s| ==> Lowercase(s[i]) || Figure(s[i]) || s[i] in ['.', '_', '-']
  }

  predicate LowHex(s: string, n: nat) {
    |s| == n && forall i :: 0 <= i < n ==> Figure(s[i]) || 97 <= s[i] as int <= 102
  }

  /** Five groups of lower-case hexadecimal digits. */
  ghost predicate LowUuid(s: string) {
    exists a, b, c, d, e ::
      LowHex(a, 8) && LowHex(b, 4) && LowHex(c, 4) && LowHex(d, 4) && LowHex(e, 12) && s == FiveGroups(a, b, c, d, e)
  }

  function FiveGroups(a: string, b: string, c: string, d: string, e: string): string {
    a + ("-" + (b + ("-" + (c + ("-" + (d + ("-" + e)))))))
  }

  /** The same text with its capital letters made small. */
  predicate InLowerCase(s: string, low: string) {
    |s| == |low| && forall i :: 0 <= i < |s| ==> low[i] as int == s[i] as int + if Uppercase(s[i]) then 32 else 0
  }

  predicate Code(s: string) { |s| == 3 && Uppercase(s[0]) && Uppercase(s[1]) && Uppercase(s[2]) }

  predicate Fingerprint(s: string) { s == "unknown" || LowHex(s, 64) }

  predicate SecretName(s: string) {
    && 1 <= |s| <= 128 && (Lowercase(s[0]) || Uppercase(s[0]) || s[0] == '_')
    && forall i :: 0 <= i < |s| ==>
         Lowercase(s[i]) || Uppercase(s[i]) || Figure(s[i]) || s[i] in ['_', '.', '/', '-']
  }

  predicate FileName(s: string) { '/' !in s && '\\' !in s && s != "." && s != ".." }

  predicate FilePath(s: string) { 1 <= |s| <= 1024 && '\0' !in s }

  /** Digits, and after a point more digits. */
  predicate NumeralParts(s: string, whole: string, frac: string) {
    && s == whole + (if frac == "" then "" else "." + frac)
    && whole != "" && AllDigits(whole) && AllDigits(frac)
  }

  ghost predicate Numeral(s: string) { exists whole, frac :: NumeralParts(s, whole, frac) }

  /** A numeral worth at least 0.01. */
  ghost predicate Money(s: string) {
    |s| <= 40 && exists whole, frac :: NumeralParts(s, whole, frac) && WorthACent(whole, frac)
  }

  predicate WorthACent(whole: string, frac: string) {
    AllDigits(whole) && AllDigits(frac) && AllDigits(whole + frac) && 100 * Parse(whole + frac) >= Pow10(|frac|)
  }

  /** A numeral that may be negative. */
  ghost predicate AmountText(s: string) {
    |s| <= 40 && exists t :: Numeral(t) && (s == t || s == "-" + t)
  }

  // ------------------------------------------------------------ equivalences

  lemma OneLineMeans(s: string)
    ensures HasControl(s) <==> !OneLine(s, |s|)
  {
  }

  lemma LineMeans(s: string, max: nat)
    ensures IsText(Text(s), max) <==> Line(s, max)
  {
    hide Trim, White;
    OneLineMeans(s);
    TrimMeans(s);
    var a: nat, b: nat :| CoreAt(s, Trim(s), a, b);
    if Trim(s) != "" {
      assert s[a] == Trim(s)[0];
    }
  }

  lemma SlugMeans(s: string)
    ensures IsId(Text(s)) <==> Slug(s)
  {
  }

  lemma SourceNameMeans(s: string)
    ensures IsSourceId(Text(s)) <==> SourceName(s)
  {
  }

  lemma CodeMeans(s: string)
    ensures IsCurrency(Text(s)) <==> Code(s)
  {
  }

  lemma FingerprintMeans(s: string)
    ensures IsHash(Text(s)) <==> Fingerprint(s)
  {
  }

  lemma SecretNameMeans(s: string)
    ensures IsSecretRef(Text(s)) <==> SecretName(s)
  {
  }

  lemma FileNameMeans(s: string)
    ensures IsFileName(s) <==> FileName(s)
  {
  }

  lemma FilePathMeans(s: string)
    ensures IsFilePath(Text(s)) <==> FilePath(s)
  {
  }

  predicate HexAt(s: string, from: nat, to: nat) {
    from <= to <= |s| && forall i :: from <= i < to ==> Figure(s[i]) || 97 <= s[i] as int <= 102
  }

  lemma LowUuidSplit(s: string)
    requires |s| == 36 && s[8] == '-' && s[13] == '-' && s[18] == '-' && s[23] == '-'
    requires HexAt(s, 0, 8) && HexAt(s, 9, 13) && HexAt(s, 14, 18) && HexAt(s, 19, 23) && HexAt(s, 24, 36)
    ensures LowUuid(s)
  {
    var a, b, c, d, e := s[..8], s[9..13], s[14..18], s[19..23], s[24..];
    assert s == FiveGroups(a, b, c, d, e);
    assert LowHex(a, 8) && LowHex(b, 4) && LowHex(c, 4) && LowHex(d, 4) && LowHex(e, 12);
  }

  lemma LowUuidParts(s: string)
    requires LowUuid(s)
    ensures |s| == 36 && s[8] == '-' && s[13] == '-' && s[18] == '-' && s[23] == '-'
    ensures HexAt(s, 0, 8) && HexAt(s, 9, 13) && HexAt(s, 14, 18) && HexAt(s, 19, 23) && HexAt(s, 24, 36)
  {
    var a, b, c, d, e :|
      LowHex(a, 8) && LowHex(b, 4) && LowHex(c, 4) && LowHex(d, 4) && LowHex(e, 12) && s == FiveGroups(a, b, c, d, e);
    assert s[..8] == a && s[9..13] == b && s[14..18] == c && s[19..23] == d && s[24..] == e;
  }

  /** A UUID in any case is taken over in lower case. */
  lemma UuidLowered(s: string)
    requires IsUuid(Text(s))
    ensures LowUuid(Lower(s)) && InLowerCase(s, Lower(s))
  {
    LowUuidSplit(Lower(s));
  }

  lemma LoweredUuid(s: string, low: string)
    requires LowUuid(low) && InLowerCase(s, low)
    ensures IsUuid(Text(s)) && Lower(s) == low
  {
    hide LowUuid;
    LowUuidParts(low);
  }

  lemma NumeralMeans(s: string)
    ensures IsDecimal(s) <==> Numeral(s)
    ensures forall whole, frac :: NumeralParts(s, whole, frac) ==> whole == Before(s, '.') && frac == FractionOf(s)
  {
    hide Before, Without, IsDecimal, FractionOf;
    if IsDecimal(s) {
      DecimalIsNumeral(s);
    }
    forall whole, frac | NumeralParts(s, whole, frac)
      ensures IsDecimal(s) && whole == Before(s, '.') && frac == FractionOf(s)
    {
      NumeralIsDecimal(s, whole, frac);
    }
  }

  lemma DecimalIsNumeral(s: string)
    requires IsDecimal(s)
    ensures NumeralParts(s, Before(s, '.'), FractionOf(s))
  {
    hide Without, AllDigits, FractionOf;
    FractionIsTheRest(s);
    var whole := Before(s, '.');
    hide Before;
    if |whole| < |s| {
      assert s == whole + ("." + s[|whole| + 1..]);
    } else {
      assert s == whole + "";
    }
  }

  lemma NumeralIsDecimal(s: string, whole: string, frac: string)
    requires NumeralParts(s, whole, frac)
    ensures IsDecimal(s) && whole == Before(s, '.') && frac == FractionOf(s)
  {
    hide Before, Without, AllDigits, FractionOf;
    var tail := if frac == "" then "" else "." + frac;
    DigitsWithout(whole, '.');
    BeforeUnique(whole, '.', tail);
    if frac != "" {
      assert s[|whole| + 1..] == frac;
    }
    FractionIsTheRest(s);
  }

  lemma MoneyMeans(s: string)
    ensures IsBudget(Text(s)) <==> Money(s)
  {
    hide IsDecimal, NumeralParts, WorthACent, AtLeastOneCent, Before, FractionOf;
    NumeralMeans(s);
    if IsDecimal(s) {
      DecimalIsNumeral(s);
      CentMeans(s);
    }
  }

  lemma CentMeans(s: string)
    requires IsDecimal(s)
    ensures AtLeastOneCent(s) <==> WorthACent(Before(s, '.'), FractionOf(s))
  {
    hide IsDecimal, AtLeastOneCent, Before, FractionOf, Parse, Pow10;
    AtLeastOneCentMeans(s);
  }

  lemma AmountMeans(s: string)
    ensures |s| <= 40 && IsSignedDecimal(s) <==> AmountText(s)
  {
    hide IsDecimal, Numeral;
    var body := if s != "" && s[0] == '-' then s[1..] else s;
    NumeralMeans(body);
    assert s == body || s == "-" + body;
    forall t | Numeral(t) && (s == t || s == "-" + t)
      ensures body == t
    {
      NumeralStart(t);
    }
  }

  lemma NumeralStart(t: string)
    requires Numeral(t)
    ensures t != "" && t[0] != '-'
  {
  }
}
