/**
 Which inputs scripts/acceptance/focus_control_totals.py accepts, and what a refusal means, stated on the cells of the
 records: the shape of a month start, a currency code and a plain decimal is given by how the text splits.
 */
module ControlTotalsAcceptance {
  import opened Basics
  import opened ControlTotals
  import opened CsvRecords
  import opened Digits
  import opened PlainDecimals

  // ------------------------------------------------------------------ cells

  /** The token of a null: NULL without quotes. */
  predicate NullCell(f: Field) { f == Field("NULL", false) }

  /** One LF may follow what a cell must hold. */
  predicate FinalLf(lf: string) { lf == "" || lf == "\n" }

  predicate Fraction(f: string) {
    f == "" || (|f| >= 2 && f[0] == '.' && forall i :: 1 <= i < |f| ==> f[i] == '0')
  }

  predicate Zone(z: string) { z in ["", "Z", "+0000", "-0000", "+00:00", "-00:00"] }

  /** The midnight of a day, in UTC. */
  predicate MidnightParts(tail: string, separator: string, fraction: string, zone: string) {
    && tail == separator + ("00:00:00" + (fraction + zone))
    && (separator == " " || separator == "T") && Fraction(fraction) && Zone(zone)
  }

  ghost predicate Midnight(tail: string) {
    tail == "" || exists separator, fraction, zone :: MidnightParts(tail, separator, fraction, zone)
  }

  predicate MonthParts(text: string, year: string, month: string, tail: string, lf: string) {
    && text == year + ("-" + (month + ("-01" + (tail + lf)))) && FinalLf(lf)
    && |year| == 4 && AllDigits(year)
    && |month| == 2 && AllDigits(month) && 1 <= Parse(month) <= 12
  }

  /** The first of a month, at midnight UTC when a time is given. */
  ghost predicate MonthStart(text: string) {
    exists year, month, tail, lf :: MonthParts(text, year, month, tail, lf) && Midnight(tail)
  }

  predicate CodeParts(text: string, a: char, b: char, c: char, lf: string) {
    text == [a, b, c] + lf && FinalLf(lf) && 'A' <= a <= 'Z' && 'A' <= b <= 'Z' && 'A' <= c <= 'Z'
  }

  ghost predicate CurrencyCode(text: string) { exists a, b, c, lf :: CodeParts(text, a, b, c, lf) }

  predicate DecimalParts(text: string, negative: bool, whole: string, frac: string, lf: string) {
    && text == (if negative then "-" else "") + (whole + ((if frac == "" then "" else "." + frac) + lf)) && FinalLf(lf)
    && whole != "" && AllDigits(whole) && AllDigits(frac)
  }

  ghost predicate PlainNumber(text: string) {
    exists negative, whole, frac, lf :: DecimalParts(text, negative, whole, frac, lf)
  }

  /** What a cell under a column must hold. */
  ghost predicate GoodCell(s: Setup, column: string, f: Field) {
    && (column == "BillingPeriodStart" ==> !NullCell(f) && MonthStart(f.text))
    && (column == "BillingCurrency" ==> !NullCell(f) && CurrencyCode(f.text))
    && (column == "BilledCost" ==> !NullCell(f) && PlainNumber(f.text))
    && (column == "EffectiveCost" ==> NullCell(f) || PlainNumber(f.text))
    && (column == s.rowId ==> !NullCell(f))
    && (column == "ProviderName" && s.filter.Some? ==> !NullCell(f) && f.text != "")
  }

  /** A record with one good cell for each column. */
  ghost predicate GoodRecord(s: Setup, rec: Record) {
    |rec| == |s.header| && forall k :: 0 <= k < |rec| ==> GoodCell(s, s.header[k], rec[k])
  }

  /** Distinct columns with all those needed, and a filter that names providers. */
  predicate GoodHeader(s: Setup) {
    && (forall i, j :: 0 <= i < j < |s.header| ==> s.header[i] != s.header[j])
    && "BillingPeriodStart" in s.header && "BillingCurrency" in s.header
    && "BilledCost" in s.header && "EffectiveCost" in s.header && s.rowId in s.header
    && (s.filter.Some? ==> "ProviderName" in s.header && |s.filter.value| > 0 && "" !in s.filter.value)
  }

  // ----------------------------------------------------------- text by text

  lemma LfSplit(text: string)
    ensures text == BeforeFinalLf(text) + if text != "" && text[|text| - 1] == '\n' then "\n" else ""
  {
  }

  lemma LfDropped(t: string, lf: string)
    requires FinalLf(lf) && (t != "" ==> t[|t| - 1] != '\n')
    ensures BeforeFinalLf(t + lf) == t
  {
    if lf == "" { assert t + lf == t; } else { assert (t + lf)[..|t|] == t; }
  }

  function LfOf(text: string): string { if text != "" && text[|text| - 1] == '\n' then "\n" else "" }

  lemma CurrencyMeans(text: string)
    ensures IsCurrency(text) <==> CurrencyCode(text)
  {
    hide BeforeFinalLf;
    var t := BeforeFinalLf(text);
    LfSplit(text);
    if a, b, c, lf :| CodeParts(text, a, b, c, lf) {
      LfDropped([a, b, c], lf);
    }
    if IsCurrency(text) {
      assert t == [t[0], t[1], t[2]];
      assert CodeParts(text, t[0], t[1], t[2], LfOf(text));
    }
  }

  lemma GrammarOf(negative: bool, whole: string, frac: string)
    requires whole != "" && AllDigits(whole) && AllDigits(frac)
    ensures var t := (if negative then "-" else "") + (whole + if frac == "" then "" else "." + frac);
            var n: int := Parse(whole + frac);
            && ParseGrammar(t) == Some(Plain(if negative then -n else n, |frac|))
            && t != "" && t[|t| - 1] != '\n'
  {
    hide AllDigits, Parse, ParseBody, ParseGrammar;
    var body := whole + if frac == "" then "" else "." + frac;
    if frac == "" {
      assert whole + "" == whole && whole + frac == whole;
      WholeBody(negative, whole);
    } else {
      PointBody(negative, whole, frac);
    }
    FirstIsDigit(whole);
    assert body[0] == whole[0];
    SignedBody(negative, body);
  }

  lemma SignedBody(negative: bool, body: string)
    requires ParseBody(negative, body).Some? && body != "" && body[0] != '-'
    ensures var t := (if negative then "-" else "") + body;
            ParseGrammar(t) == ParseBody(negative, body) && t != "" && t[|t| - 1] != '\n'
  {
    hide ParseBody;
    BodyEndsInDigit(negative, body);
    assert ("-" + body)[1..] == body && "" + body == body;
  }

  lemma FirstIsDigit(whole: string)
    requires whole != "" && AllDigits(whole)
    ensures whole[0] != '-'
  {
  }

  lemma BodyParts(negative: bool, body: string) returns (whole: string, frac: string)
    requires ParseBody(negative, body).Some?
    ensures whole != "" && AllDigits(whole) && AllDigits(frac)
    ensures body == whole + if frac == "" then "" else "." + frac
  {
    hide Parse, AllDigits;
    whole := Before(body, '.');
    frac := if |whole| == |body| then "" else body[|whole| + 1..];
  }

  /** A plain decimal is read as its digits say, at the scale of its fraction. */
  lemma DecimalValue(text: string, negative: bool, whole: string, frac: string, lf: string)
    requires DecimalParts(text, negative, whole, frac, lf)
    ensures var n: int := Parse(whole + frac); ParseDecimal(text) == Some(Plain(if negative then -n else n, |frac|))
  {
    hide ParseGrammar, BeforeFinalLf, Parse;
    GrammarOf(negative, whole, frac);
    var t := (if negative then "-" else "") + (whole + if frac == "" then "" else "." + frac);
    assert text == t + lf;
    LfDropped(t, lf);
  }

  lemma DecimalMeans(text: string)
    ensures ParseDecimal(text).Some? <==> PlainNumber(text)
  {
    hide ParseBody, BeforeFinalLf, AllDigits, Parse, ParseDecimal, DecimalParts;
    if negative, whole, frac, lf :| DecimalParts(text, negative, whole, frac, lf) {
      DecimalValue(text, negative, whole, frac, lf);
    }
    if ParseDecimal(text).Some? {
      DecimalSplits(text);
    }
  }

  lemma DecimalSplits(text: string)
    requires ParseDecimal(text).Some?
    ensures PlainNumber(text)
  {
    hide ParseBody, BeforeFinalLf, AllDigits, Parse;
    LfSplit(text);
    var t := BeforeFinalLf(text);
    var negative := t != "" && t[0] == '-';
    var body := if negative then t[1..] else t;
    var whole, frac := BodyParts(negative, body);
    assert t == (if negative then "-" else "") + body;
    assert DecimalParts(text, negative, whole, frac, LfOf(text));
  }

  // ---------------------------------------------------------- month starts

  lemma {:induction false} DropZerosIs(s: string) returns (k: nat)
    ensures k <= |s| && DropZeros(s) == s[k..] && (forall i :: 0 <= i < k ==> s[i] == '0')
    ensures k < |s| ==> s[k] != '0'
  {
    k := 0;
    if s != "" && s[0] == '0' {
      k := DropZerosIs(s[1..]);
      assert s[1..][k..] == s[k + 1..];
      assert forall i :: 0 < i <= k ==> s[i] == s[1..][i - 1];
      k := k + 1;
    }
  }

  lemma {:induction false} ZerosDropped(zeros: string, rest: string)
    requires (forall i :: 0 <= i < |zeros| ==> zeros[i] == '0') && (rest != "" ==> rest[0] != '0')
    ensures DropZeros(zeros + rest) == rest
  {
    if zeros == "" {
      assert zeros + rest == rest;
    } else {
      assert (zeros + rest)[1..] == zeros[1..] + rest;
      ZerosDropped(zeros[1..], rest);
    }
  }

  lemma ZoneMeans(z: string)
    ensures IsUtc(z) <==> Zone(z)
    ensures Zone(z) ==> z == "" || (z[0] != '.' && z[0] != '0')
  {
    assert "+0000"[1..] == "0000" == "-0000"[1..] && "+00:00"[1..] == "00:00" == "-00:00"[1..];
    assert "+" + "0000" == "+0000" && "-" + "0000" == "-0000" && "+" + "00:00" == "+00:00" && "-" + "00:00" == "-00:00";
    if z != "" && (z[0] == '+' || z[0] == '-') {
      assert z == [z[0]] + z[1..];
    }
  }

  /** What follows the seconds is a fraction of zeros and then a zone. */
  lemma SecondsEnd(s: string) returns (fraction: string, zone: string)
    requires IsUtc(SkipFraction(s))
    ensures s == fraction + zone && Fraction(fraction) && Zone(zone)
  {
    hide IsUtc, Zone, DropZeros;
    zone := SkipFraction(s);
    ZoneMeans(zone);
    if ".0" <= s {
      var k := DropZerosIs(s[2..]);
      fraction := s[..k + 2];
      assert s[2..][k..] == s[k + 2..];
      assert forall i :: 2 <= i < |fraction| ==> fraction[i] == s[2..][i - 2];
    } else {
      fraction := "";
    }
  }

  lemma SecondsRead(fraction: string, zone: string)
    requires Fraction(fraction) && Zone(zone)
    ensures IsUtc(SkipFraction(fraction + zone))
  {
    hide IsUtc, Zone, DropZeros;
    ZoneMeans(zone);
    var s := fraction + zone;
    if fraction == "" {
      assert s == zone;
    } else {
      assert s[0] == '.' && s[1] == '0' && s[..2] == ".0";
      assert s[2..] == fraction[2..] + zone;
      ZerosDropped(fraction[2..], zone);
    }
  }

  lemma ClockSplit(tail: string, separator: string)
    requires |separator| == 1 && separator + "00:00:00" <= tail
    ensures tail == separator + ("00:00:00" + tail[9..])
  {
  }

  lemma MidnightMeans(tail: string)
    ensures IsMidnight(tail) <==> Midnight(tail)
  {
    hide IsUtc, SkipFraction;
    if separator, fraction, zone :| MidnightParts(tail, separator, fraction, zone) {
      SecondsRead(fraction, zone);
      assert tail[9..] == fraction + zone;
      assert tail[..9] == separator + "00:00:00";
    }
    if IsMidnight(tail) && tail != "" {
      var separator := if " 00:00:00" <= tail then " " else "T";
      ClockSplit(tail, separator);
      var fraction, zone := SecondsEnd(tail[9..]);
      assert MidnightParts(tail, separator, fraction, zone);
    }
  }

  lemma MonthMeans(m: string)
    requires |m| == 2
    ensures IsMonth(m) <==> AllDigits(m) && 1 <= Parse(m) <= 12
  {
    if AllDigits(m) {
      assert m[..1][..0] == "" && Parse(m[..1]) == DigitValue(m[0]);
    }
  }

  lemma PeriodSplit(text: string)
    requires Period(text).Some?
    ensures MonthStart(text)
  {
    hide IsMidnight, Midnight, AllDigits, Parse, IsMonth, BeforeFinalLf;
    var t := BeforeFinalLf(text);
    LfSplit(text);
    MonthMeans(t[5..7]);
    MidnightMeans(t[10..]);
    assert t == t[..4] + ("-" + (t[5..7] + ("-01" + t[10..]))) by { assert t[4..5] == "-"; }
    assert MonthParts(text, t[..4], t[5..7], t[10..], LfOf(text));
  }

  lemma PeriodRead(text: string, year: string, month: string, tail: string, lf: string)
    requires MonthParts(text, year, month, tail, lf) && Midnight(tail)
    ensures Period(text) == Some(year + "-" + month + "-01")
  {
    hide IsMidnight, Midnight, AllDigits, Parse, IsMonth, BeforeFinalLf;
    var t := year + ("-" + (month + ("-01" + tail)));
    assert text == t + lf;
    MidnightEnd(tail);
    LfDropped(t, lf);
    assert t[..4] == year && t[5..7] == month && t[7..10] == "-01" && t[10..] == tail;
    MonthMeans(month);
    MidnightMeans(tail);
    assert t[..7] + "-01" == year + "-" + month + "-01";
  }

  lemma MidnightEnd(tail: string)
    requires Midnight(tail)
    ensures tail != "" ==> tail[|tail| - 1] != '\n'
  {
  }

  /** A period is read exactly from the first of a month at midnight UTC. */
  lemma PeriodMeans(text: string)
    ensures Period(text).Some? <==> MonthStart(text)
  {
    hide Period, MonthParts, Midnight;
    if Period(text).Some? {
      PeriodSplit(text);
    }
    if year, month, tail, lf :| MonthParts(text, year, month, tail, lf) && Midnight(tail) {
      PeriodRead(text, year, month, tail, lf);
    }
  }

  // ------------------------------------------------------------- records

  /** What a refusal of a record says about its cells. */
  ghost predicate CellGround(s: Setup, column: string, f: Field, e: Refusal) {
    match e
    case BadPeriod(_) => column == "BillingPeriodStart" && (NullCell(f) || !MonthStart(f.text))
    case BadCurrency(_) => column == "BillingCurrency" && (NullCell(f) || !CurrencyCode(f.text))
    case BilledCostNull(_) => column == "BilledCost" && NullCell(f)
    case BilledCostNotDecimal(_) => column == "BilledCost" && !PlainNumber(f.text)
    case EffectiveCostNotDecimal(_) => column == "EffectiveCost" && !NullCell(f) && !PlainNumber(f.text)
    case RowIdNull(_) => column == s.rowId && NullCell(f)
    case ProviderMissing(_) => column == "ProviderName" && s.filter.Some? && (NullCell(f) || f.text == "")
    case _ => false
  }

  ghost predicate RecordGround(s: Setup, rec: Record, e: Refusal) {
    if e.FieldCount? then |rec| != |s.header|
    else |rec| == |s.header| && exists k :: 0 <= k < |rec| && CellGround(s, s.header[k], rec[k], e)
  }

  function NumberOf(e: Refusal): nat {
    match e
    case FieldCount(n) => n
    case BadPeriod(n) => n
    case BadCurrency(n) => n
    case BilledCostNull(n) => n
    case BilledCostNotDecimal(n) => n
    case EffectiveCostNotDecimal(n) => n
    case RowIdNull(n) => n
    case ProviderMissing(n) => n
    case _ => 0
  }

  lemma CellAt(s: Setup, rec: Record, name: string)
    requires GoodHeader(s) && |rec| == |s.header| && name in s.header
    ensures forall k :: 0 <= k < |rec| && s.header[k] == name ==> rec[k] == Cell(s.header, rec, name)
    ensures exists k :: 0 <= k < |rec| && s.header[k] == name
  {
  }

  lemma NullMeans(f: Field)
    ensures IsNull(f) <==> NullCell(f)
  {
  }

  lemma CanonicalMeans(text: string)
    ensures Canonical(text).Some? <==> PlainNumber(text)
  {
    hide ParseDecimal, FormatDecimal, PlainNumber;
    DecimalMeans(text);
  }

  /** A record is read exactly when its cells are good, and a refusal is true of one of them. */
  lemma RecordMeans(s: Setup, n: nat, rec: Record)
    requires GoodHeader(s) && HasColumns(s)
    ensures match ReadRow(s, n, rec)
            case Ok(_) => GoodRecord(s, rec)
            case Err(e) => !GoodRecord(s, rec) && NumberOf(e) == n && RecordGround(s, rec, e)
  {
    hide Period, IsCurrency, Canonical, Cell, IsNull, NullCell, MonthStart, CurrencyCode, PlainNumber, NullNames;
    if |rec| == |s.header| {
      CellsMean(s, rec);
      assert s.filter.Some? ==> "ProviderName" in s.header;
    }
  }

  lemma CellsMean(s: Setup, rec: Record)
    requires GoodHeader(s) && |rec| == |s.header|
    ensures forall k :: 0 <= k < |rec| ==> rec[k] == Cell(s.header, rec, s.header[k])
    ensures forall k :: 0 <= k < |rec| ==>
              && (IsNull(rec[k]) <==> NullCell(rec[k]))
              && (Period(rec[k].text).Some? <==> MonthStart(rec[k].text))
              && (IsCurrency(rec[k].text) <==> CurrencyCode(rec[k].text))
              && (Canonical(rec[k].text).Some? <==> PlainNumber(rec[k].text))
  {
    hide Period, IsCurrency, Canonical, Cell, IsNull, NullCell, MonthStart, CurrencyCode, PlainNumber, NullNames;
    forall k | 0 <= k < |rec|
      ensures rec[k] == Cell(s.header, rec, s.header[k])
      ensures IsNull(rec[k]) <==> NullCell(rec[k])
      ensures Period(rec[k].text).Some? <==> MonthStart(rec[k].text)
      ensures IsCurrency(rec[k].text) <==> CurrencyCode(rec[k].text)
      ensures Canonical(rec[k].text).Some? <==> PlainNumber(rec[k].text)
    {
      CellAt(s, rec, s.header[k]);
      NullMeans(rec[k]);
      PeriodMeans(rec[k].text);
      CurrencyMeans(rec[k].text);
      CanonicalMeans(rec[k].text);
    }
  }

  // ------------------------------------------------------------- the input

  ghost predicate AllGood(s: Setup, recs: seq<Record>) { forall i :: 0 <= i < |recs| ==> GoodRecord(s, recs[i]) }

  /** The refusal is about the first record with a bad cell; records are numbered from 2. */
  ghost predicate FirstBad(s: Setup, recs: seq<Record>, i: nat, e: Refusal) {
    && i < |recs| && AllGood(s, recs[..i]) && !GoodRecord(s, recs[i])
    && NumberOf(e) == i + 2 && RecordGround(s, recs[i], e)
  }

  ghost predicate SomeBad(s: Setup, recs: seq<Record>, e: Refusal) { exists i: nat :: FirstBad(s, recs, i, e) }

  lemma {:induction false} RecordsMean(s: Setup, recs: seq<Record>)
    requires GoodHeader(s) && HasColumns(s)
    ensures match ReadRows(s, recs)
            case Ok(_) => AllGood(s, recs)
            case Err(e) => !AllGood(s, recs) && SomeBad(s, recs, e)
  {
    hide GoodHeader, HasColumns, ReadRow, GoodRecord, RecordGround;
    if recs != [] {
      var n := |recs| - 1;
      RecordsMean(s, recs[..n]);
      match ReadRows(s, recs[..n]) {
        case Err(e) =>
          var i: nat :| FirstBad(s, recs[..n], i, e);
          assert recs[..n][..i] == recs[..i] && recs[..n][i] == recs[i];
          assert FirstBad(s, recs, i, e);
        case Ok(_) =>
          RecordMeans(s, |recs| + 1, recs[n]);
          if ReadRow(s, |recs| + 1, recs[n]).Err? {
            assert FirstBad(s, recs, n, ReadRows(s, recs).error);
          }
      }
    }
  }

  /** What a refusal before the first data record says. */
  predicate HeaderGround(s: Setup, recs: seq<Record>, e: Refusal) {
    match e
    case DuplicateColumn => exists i, j :: 0 <= i < j < |s.header| && s.header[i] == s.header[j]
    case EmptyProviderFilter => s.filter.Some? && (s.filter.value == [] || "" in s.filter.value)
    case MissingColumn(column) =>
      && column !in s.header
      && (column in ["BillingPeriodStart", "BillingCurrency", "BilledCost", "EffectiveCost", s.rowId]
          || (column == "ProviderName" && s.filter.Some?))
    case NoDataRows => recs == []
    case _ => false
  }

  lemma {:induction false} MissingIs(header: seq<string>, columns: seq<string>)
    ensures match FirstMissing(header, columns)
            case Some(column) => column in columns && column !in header
            case None => forall column :: column in columns ==> column in header
  {
    if columns != [] && columns[0] in header {
      assert columns == [columns[0]] + columns[1..];
      MissingIs(header, columns[1..]);
    }
  }

  lemma RequiredMeans(s: Setup)
    ensures forall column :: column in Required(s.rowId, s.filter) <==>
              (column in ["BillingPeriodStart", "BillingCurrency", "BilledCost", "EffectiveCost", s.rowId]
               || (column == "ProviderName" && s.filter.Some?))
  {
    var needed := ["BillingPeriodStart", "BillingCurrency", "BilledCost", "EffectiveCost", s.rowId];
    assert REQUIRED + [s.rowId] == needed;
    assert Required(s.rowId, s.filter) == needed + if s.filter.Some? then ["ProviderName"] else [];
  }

  lemma HeaderVerdict(s: Setup, recs: seq<Record>)
    ensures match Unusable(s, |recs|)
            case Some(e) => !(GoodHeader(s) && recs != []) && HeaderGround(s, recs, e)
            case None => GoodHeader(s) && recs != []
  {
    hide Required, FirstMissing;
    MissingIs(s.header, Required(s.rowId, s.filter));
    RequiredMeans(s);
    var needed := ["BillingPeriodStart", "BillingCurrency", "BilledCost", "EffectiveCost", s.rowId];
    assert forall k :: 0 <= k < |needed| ==> needed[k] in needed;
  }

  /**
   An input is accepted exactly when its header is usable, it has a data record and every cell of every record holds
   what its column asks for; a refusal is true of the header or of the first record with a bad cell.
   */
  lemma AcceptedExactlyWhenGood(s: Setup, recs: seq<Record>)
    ensures match Verdict(s, recs)
            case Ok(_) => GoodHeader(s) && recs != [] && AllGood(s, recs)
            case Err(e) =>
              && !(GoodHeader(s) && recs != [] && AllGood(s, recs))
              && (HeaderGround(s, recs, e) || (GoodHeader(s) && SomeBad(s, recs, e)))
  {
    hide GoodHeader, Unusable, ReadRows, HeaderGround, AllGood, SomeBad;
    HeaderVerdict(s, recs);
    if Unusable(s, |recs|).None? {
      RecordsMean(s, recs);
    }
  }
}
