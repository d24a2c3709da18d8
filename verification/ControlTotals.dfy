/**
 `compute` of scripts/acceptance/focus_control_totals.py, without `--rows`: what it reads from a
 record, what it refuses, and the control totals it builds. The SHA-256 digests are represented
 by their inputs.
 */
module ControlTotals {
  import opened Basics
  import opened CsvRecords
  import opened Digits
  import opened Sequences
  import opened Tallies
  import PlainDecimals

  datatype Refusal =
    | Malformed(reason: CsvError)
    | DuplicateColumn
    | EmptyProviderFilter
    | MissingColumn(column: string)
    | NoDataRows
    | FieldCount(n: nat)
    | BadPeriod(n: nat)
    | BadCurrency(n: nat)
    | BilledCostNull(n: nat)
    | BilledCostNotDecimal(n: nat)
    | EffectiveCostNotDecimal(n: nat)
    | RowIdNull(n: nat)
    | ProviderMissing(n: nat)

  /** How a run is configured: the header, the row-id column and the optional provider filter. */
  datatype Setup = Setup(header: seq<string>, rowId: string, filter: Option<seq<string>>)

  /** What one accepted record contributes. The provider is "" when there is no such column. */
  datatype Row = Row(
    period: string,
    currency: string,
    billed: string,
    effective: Option<string>,
    id: string,
    provider: string,
    nulls: seq<string>)

  // ------------------------------------------------------- reading a record

  predicate IsNull(f: Field) { !f.quoted && f.text == "NULL" }

  function DropZeros(s: string): string {
    if s != "" && s[0] == '0' then DropZeros(s[1..]) else s
  }

  function SkipFraction(s: string): string { if ".0" <= s then DropZeros(s[2..]) else s }

  predicate IsUtc(s: string) {
    s == "" || s == "Z" || ((s[0] == '+' || s[0] == '-') && (s[1..] == "0000" || s[1..] == "00:00"))
  }

  predicate IsMidnight(s: string) {
    s == "" || (" 00:00:00" <= s && IsUtc(SkipFraction(s[9..]))) || ("T00:00:00" <= s && IsUtc(SkipFraction(s[9..])))
  }

  predicate IsMonth(s: string)
    requires |s| == 2
  {
    (s[0] == '0' && '1' <= s[1] <= '9') || (s[0] == '1' && '0' <= s[1] <= '2')
  }

  /** The first of a month at midnight UTC, as "YYYY-MM-01". */
  function Period(text: string): Option<string> {
    var t := PlainDecimals.BeforeFinalLf(text);
    if |t| >= 10 && AllDigits(t[..4]) && t[4] == '-' && IsMonth(t[5..7]) && t[7..10] == "-01" && IsMidnight(t[10..])
    then Some(t[..7] + "-01")
    else None
  }

  predicate IsCurrency(text: string) {
    var t := PlainDecimals.BeforeFinalLf(text);
    |t| == 3 && forall i :: 0 <= i < 3 ==> 'A' <= t[i] <= 'Z'
  }

  function Position(header: seq<string>, name: string): (i: nat)
    requires name in header
    ensures i < |header| && header[i] == name
  {
    if header[0] == name then 0 else 1 + Position(header[1..], name)
  }

  function Cell(header: seq<string>, rec: Record, name: string): Field
    requires name in header && |rec| == |header|
  {
    rec[Position(header, name)]
  }

  function NullNames(header: seq<string>, rec: Record): seq<string>
    requires |rec| == |header|
  {
    if header == [] then []
    else
      var n := |header| - 1;
      NullNames(header[..n], rec[..n]) + if IsNull(rec[n]) then [header[n]] else []
  }

  const REQUIRED := ["BillingPeriodStart", "BillingCurrency", "BilledCost", "EffectiveCost"]

  function Required(rowId: string, filter: Option<seq<string>>): seq<string> {
    REQUIRED + [rowId] + if filter.Some? then ["ProviderName"] else []
  }

  predicate HasColumns(s: Setup) {
    forall i :: 0 <= i < |Required(s.rowId, s.filter)| ==> Required(s.rowId, s.filter)[i] in s.header
  }

  lemma ColumnsPresent(s: Setup)
    requires HasColumns(s)
    ensures "BillingPeriodStart" in s.header && "BillingCurrency" in s.header
    ensures "BilledCost" in s.header && "EffectiveCost" in s.header && s.rowId in s.header
    ensures s.filter.Some? ==> "ProviderName" in s.header
  {
    var r := Required(s.rowId, s.filter);
    assert r[0] in s.header && r[1] in s.header && r[2] in s.header && r[3] in s.header && r[4] in s.header;
    if s.filter.Some? { assert r[5] in s.header; }
  }

  /** The checks of the loop on one record, in their order; `n` is the record number it reports. */
  function ReadRow(s: Setup, n: nat, rec: Record): Result<Row, Refusal>
    requires HasColumns(s)
  {
    ColumnsPresent(s);
    if |rec| != |s.header| then Err(FieldCount(n))
    else
      var start := Cell(s.header, rec, "BillingPeriodStart");
      var currency := Cell(s.header, rec, "BillingCurrency");
      var billed := Cell(s.header, rec, "BilledCost");
      var effective := Cell(s.header, rec, "EffectiveCost");
      var id := Cell(s.header, rec, s.rowId);
      var provider := if "ProviderName" in s.header then Cell(s.header, rec, "ProviderName") else Field("", false);
      if IsNull(start) || Period(start.text).None? then Err(BadPeriod(n))
      else if IsNull(currency) || !IsCurrency(currency.text) then Err(BadCurrency(n))
      else if IsNull(billed) then Err(BilledCostNull(n))
      else if PlainDecimals.Canonical(billed.text).None? then Err(BilledCostNotDecimal(n))
      else if !IsNull(effective) && PlainDecimals.Canonical(effective.text).None? then Err(EffectiveCostNotDecimal(n))
      else if IsNull(id) then Err(RowIdNull(n))
      else if s.filter.Some? && (IsNull(provider) || provider.text == "") then Err(ProviderMissing(n))
      else Ok(Row(
        Period(start.text).value,
        currency.text,
        PlainDecimals.Canonical(billed.text).value,
        if IsNull(effective) then None else PlainDecimals.Canonical(effective.text),
        id.text,
        provider.text,
        NullNames(s.header, rec)))
  }

  lemma RowShape(s: Setup, n: nat, rec: Record)
    requires HasColumns(s) && ReadRow(s, n, rec).Ok?
    ensures |rec| == |s.header| && ReadRow(s, n, rec).value.nulls == NullNames(s.header, rec)
  {
    hide Period, IsCurrency, Cell, PlainDecimals.Canonical, NullNames;
    ColumnsPresent(s);
  }

  /** All records read in order, or the first refusal. The header is record 1. */
  function ReadRows(s: Setup, recs: seq<Record>): Result<seq<Row>, Refusal>
    requires HasColumns(s)
  {
    if recs == [] then Ok([])
    else
      match ReadRows(s, recs[..|recs| - 1])
      case Err(e) => Err(e)
      case Ok(before) =>
        match ReadRow(s, |recs| + 1, recs[|recs| - 1])
        case Err(e) => Err(e)
        case Ok(row) => Ok(before + [row])
  }

  // ---------------------------------------------------------------- groups

  datatype Key = Key(period: string, currency: string)

  /** Python's order on pairs of strings. */
  predicate KeyLeq(a: Key, b: Key) {
    if a.period == b.period then TextLeq(a.currency, b.currency) else TextLeq(a.period, b.period)
  }

  lemma KeyOrder()
    ensures TotalOrder(KeyLeq) && Antisymmetric(KeyLeq)
  {
    hide TextLeq;
    TextOrder();
  }

  datatype Group = Group(rows: nat, billed: seq<string>, effective: seq<string>, nulls: nat, lines: seq<string>)

  const NO_ROWS := Group(0, [], [], 0, [])

  function Line(r: Row): string {
    r.id + "\t" + r.billed + "\t" + (if r.effective.None? then "\\N" else r.effective.value) + "\n"
  }

  function Add(g: Group, r: Row): Group {
    Group(
      g.rows + 1,
      g.billed + [r.billed],
      if r.effective.None? then g.effective else g.effective + [r.effective.value],
      if r.effective.None? then g.nulls + 1 else g.nulls,
      g.lines + [Line(r)])
  }

  function GroupOf(rows: seq<Row>): Group {
    if rows == [] then NO_ROWS else Add(GroupOf(rows[..|rows| - 1]), rows[|rows| - 1])
  }

  function KeyOf(r: Row): Key { Key(r.period, r.currency) }

  function KeysOf(rows: seq<Row>): seq<Key> {
    if rows == [] then [] else KeysOf(rows[..|rows| - 1]) + [KeyOf(rows[|rows| - 1])]
  }

  function HasKey(k: Key): Row -> bool { (r: Row) => KeyOf(r) == k }

  function HasPeriod(p: string): Row -> bool { (r: Row) => r.period == p }

  function Kept(filter: Option<seq<string>>): Row -> bool { (r: Row) => filter.None? || r.provider in filter.value }

  function Dropped(filter: Option<seq<string>>): Row -> bool { (r: Row) => !(filter.None? || r.provider in filter.value) }

  function PeriodsOf(rows: seq<Row>): seq<string> {
    if rows == [] then [] else PeriodsOf(rows[..|rows| - 1]) + [rows[|rows| - 1].period]
  }

  function ProvidersOf(rows: seq<Row>): seq<string> {
    if rows == [] then [] else ProvidersOf(rows[..|rows| - 1]) + [rows[|rows| - 1].provider]
  }

  function NullsOf(rows: seq<Row>): seq<string> {
    if rows == [] then [] else NullsOf(rows[..|rows| - 1]) + rows[|rows| - 1].nulls
  }

  // ---------------------------------------------------------- the document

  /** One entry of `totals`; `lines` are the sorted lines whose concatenation is digested. */
  datatype Total = Total(
    key: Key,
    rowCount: nat,
    billedCost: string,
    effectiveCost: string,
    effectiveCostNulls: nat,
    lines: seq<string>)

  datatype Exclusion = Exclusion(period: string, rowCount: nat, providers: seq<(string, nat)>)

  datatype Document = Document(
    dataRows: nat,
    nullTokens: seq<(string, nat)>,
    totals: seq<Total>,
    providerFilter: Option<seq<string>>,
    excluded: seq<Exclusion>)

  ghost predicate Summable(g: Group) {
    PlainDecimals.AllParse(g.billed) && PlainDecimals.AllParse(g.effective)
  }

  function TotalOf(k: Key, g: Group): Total
    requires Summable(g)
  {
    Total(k, g.rows, PlainDecimals.SumDecimals(g.billed), PlainDecimals.SumDecimals(g.effective), g.nulls,
          Sort(g.lines, TextLeq))
  }

  /** Rows whose amounts are canonical decimals, as `ReadRow` produces them. */
  predicate Decimal(r: Row) {
    && PlainDecimals.ParseDecimal(r.billed).Some?
    && (r.effective.Some? ==> PlainDecimals.ParseDecimal(r.effective.value).Some?)
  }

  predicate AllDecimal(rows: seq<Row>) { forall i :: 0 <= i < |rows| ==> Decimal(rows[i]) }

  lemma {:induction false} GroupSummable(rows: seq<Row>)
    requires AllDecimal(rows)
    ensures Summable(GroupOf(rows))
  {
    hide PlainDecimals.ParseDecimal;
    if rows != [] {
      GroupSummable(rows[..|rows| - 1]);
      assert Decimal(rows[|rows| - 1]);
    }
  }

  lemma {:induction false} FilterDecimal(rows: seq<Row>, keep: Row -> bool)
    requires AllDecimal(rows)
    ensures AllDecimal(Filter(rows, keep))
  {
    hide Decimal;
    if rows != [] {
      FilterDecimal(rows[..|rows| - 1], keep);
    }
  }

  function TotalAt(rows: seq<Row>, k: Key): Total
    requires AllDecimal(rows)
  {
    FilterDecimal(rows, HasKey(k));
    GroupSummable(Filter(rows, HasKey(k)));
    TotalOf(k, GroupOf(Filter(rows, HasKey(k))))
  }

  /** One total for every key of the included rows, in key order. */
  function Totals(rows: seq<Row>): (ts: seq<Total>)
    requires AllDecimal(rows)
    ensures |ts| == |SortedKeys(KeysOf(rows), KeyLeq)|
  {
    var ks := SortedKeys(KeysOf(rows), KeyLeq);
    seq(|ks|, i requires 0 <= i < |ks| => TotalAt(rows, ks[i]))
  }

  function ExclusionAt(rows: seq<Row>, p: string): Exclusion {
    var tally := SortedTally(ProvidersOf(Filter(rows, HasPeriod(p))));
    Exclusion(p, TallyTotal(tally), tally)
  }

  /** The excluded rows by period and provider, both in order. */
  function Exclusions(rows: seq<Row>): (es: seq<Exclusion>)
    ensures |es| == |SortedKeys(PeriodsOf(rows), TextLeq)|
  {
    var ps := SortedKeys(PeriodsOf(rows), TextLeq);
    seq(|ps|, i requires 0 <= i < |ps| => ExclusionAt(rows, ps[i]))
  }

  function DocumentOf(filter: Option<seq<string>>, rows: seq<Row>): Document
    requires AllDecimal(rows)
  {
    FilterDecimal(rows, Kept(filter));
    Document(|rows|, SortedTally(NullsOf(rows)), Totals(Filter(rows, Kept(filter))), filter,
             Exclusions(Filter(rows, Dropped(filter))))
  }

  // ------------------------------------------------------------ the verdict

  function Texts(rec: Record): (header: seq<string>)
    ensures |header| == |rec|
  {
    seq(|rec|, i requires 0 <= i < |rec| => rec[i].text)
  }

  function FirstMissing(header: seq<string>, columns: seq<string>): (m: Option<string>)
    ensures m.None? <==> forall i :: 0 <= i < |columns| ==> columns[i] in header
  {
    if columns == [] then None
    else if columns[0] !in header then Some(columns[0])
    else
      assert columns == [columns[0]] + columns[1..];
      FirstMissing(header, columns[1..])
  }

  /** The checks before the first data record. */
  function Unusable(s: Setup, dataRows: nat): (e: Option<Refusal>)
    ensures e.None? ==> HasColumns(s)
  {
    if !Distinct(s.header) then Some(DuplicateColumn)
    else if s.filter.Some? && (s.filter.value == [] || "" in s.filter.value) then Some(EmptyProviderFilter)
    else
      match FirstMissing(s.header, Required(s.rowId, s.filter))
      case Some(column) => Some(MissingColumn(column))
      case None => if dataRows == 0 then Some(NoDataRows) else None
  }

  lemma ReadRowDecimal(s: Setup, n: nat, rec: Record)
    requires HasColumns(s) && ReadRow(s, n, rec).Ok?
    ensures Decimal(ReadRow(s, n, rec).value)
  {
    hide Period, IsCurrency, NullNames, Cell, PlainDecimals.ParseDecimal, PlainDecimals.FormatDecimal;
    ColumnsPresent(s);
    CanonicalParses(Cell(s.header, rec, "BilledCost").text);
    CanonicalParses(Cell(s.header, rec, "EffectiveCost").text);
  }

  lemma CanonicalParses(text: string)
    ensures PlainDecimals.Canonical(text).Some? ==>
              PlainDecimals.ParseDecimal(PlainDecimals.Canonical(text).value) == PlainDecimals.ParseDecimal(text)
  {
    hide PlainDecimals.ParseDecimal, PlainDecimals.FormatDecimal;
    if PlainDecimals.Canonical(text).Some? {
      var p := PlainDecimals.ParseDecimal(text).value;
      PlainDecimals.FormatParses(p.unscaled, p.scale);
    }
  }

  lemma {:induction false} ReadRowsDecimal(s: Setup, recs: seq<Record>)
    requires HasColumns(s) && ReadRows(s, recs).Ok?
    ensures |ReadRows(s, recs).value| == |recs| && AllDecimal(ReadRows(s, recs).value)
  {
    hide ReadRow, Decimal, HasColumns;
    if recs != [] {
      ReadRowsDecimal(s, recs[..|recs| - 1]);
      ReadRowDecimal(s, |recs| + 1, recs[|recs| - 1]);
    }
  }

  /** The verdict on tokenized records: a refusal, or the document. */
  function Verdict(s: Setup, recs: seq<Record>): Result<Document, Refusal> {
    match Unusable(s, |recs|)
    case Some(e) => Err(e)
    case None =>
      match ReadRows(s, recs)
      case Err(e) => Err(e)
      case Ok(rows) => ReadRowsDecimal(s, recs); Ok(DocumentOf(s.filter, rows))
  }

  lemma AcceptedTextHasRecords(text: string)
    ensures Tokenized(text).Ok? ==> Tokenized(text).value != []
  {
    hide Tokenized;
    if Tokenized(text).Ok? {
      AcceptedTextPrints(text);
    }
  }

  function Computed(text: string, rowId: string, filter: Option<seq<string>>): Result<Document, Refusal> {
    AcceptedTextHasRecords(text);
    match Tokenized(text)
    case Err(e) => Err(Malformed(e))
    case Ok(recs) => Verdict(Setup(Texts(recs[0]), rowId, filter), recs[1..])
  }
}
