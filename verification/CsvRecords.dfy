/**
 The CSV state machine of scripts/acceptance/focus_control_totals.py (`tokenize`) and the printer it
 inverts: section 2 of RFC 4180 with LF record ends. The input is the decoded text.
 */
module CsvRecords {
  import opened Basics

  datatype Field = Field(text: string, quoted: bool)

  type Record = seq<Field>

  datatype CsvError = EmptyInput | CarriageReturn | AfterClosingQuote | StrayQuote | Unterminated

  // ------------------------------------------------------------- the machine

  datatype Scan = Scan(
    records: seq<Record>,
    record: Record,
    field: string,
    quoted: bool,
    inQuotes: bool,
    afterQuote: bool)

  const START := Scan([], [], "", false, false, false)

  function EndField(st: Scan): Scan {
    st.(record := st.record + [Field(st.field, st.quoted)], field := "", quoted := false, afterQuote := false)
  }

  function EndRecord(st: Scan): Scan {
    var done := EndField(st);
    done.(records := done.records + [done.record], record := [])
  }

  function Finish(st: Scan): Result<seq<Record>, CsvError> {
    if st.inQuotes then Err(Unterminated)
    else if st.field != "" || st.record != [] || st.quoted then Ok(EndRecord(st).records)
    else Ok(st.records)
  }

  /** What the machine makes of the rest of the text from a given state. */
  function Tokens(text: string, st: Scan): Result<seq<Record>, CsvError> {
    if text == "" then Finish(st)
    else
      var c := text[0];
      if st.inQuotes then
        if c == '"' then
          if |text| > 1 && text[1] == '"' then Tokens(text[2..], st.(field := st.field + ['"']))
          else Tokens(text[1..], st.(inQuotes := false, afterQuote := true))
        else Tokens(text[1..], st.(field := st.field + [c]))
      else if c == ',' then Tokens(text[1..], EndField(st))
      else if c == '\n' then Tokens(text[1..], EndRecord(st))
      else if c == '\r' then Err(CarriageReturn)
      else if st.afterQuote then Err(AfterClosingQuote)
      else if c == '"' then
        if st.field != "" then Err(StrayQuote)
        else Tokens(text[1..], st.(inQuotes := true, quoted := true))
      else Tokens(text[1..], st.(field := st.field + [c]))
  }

  function Tokenized(text: string): Result<seq<Record>, CsvError> {
    if text == "" then Err(EmptyInput) else Tokens(text, START)
  }

  method Tokenize(text: string) returns (r: Result<seq<Record>, CsvError>)
    ensures r == Tokenized(text)
  {
    if text == "" {
      return Err(EmptyInput);
    }
    var records: seq<Record>, record: Record, field: string := [], [], "";
    var quoted, inQuotes, afterQuote := false, false, false;
    var i, n := 0, |text|;
    assert text[0..] == text;
    while i < n
      invariant 0 <= i <= n
      invariant Tokens(text, START) == Tokens(text[i..], Scan(records, record, field, quoted, inQuotes, afterQuote))
    {
      var c := text[i];
      assert text[i..][1..] == text[i + 1..];
      if inQuotes {
        if c == '"' {
          if i + 1 < n && text[i + 1] == '"' {
            assert text[i..][2..] == text[i + 2..];
            field := field + ['"'];
            i := i + 2;
            continue;
          }
          inQuotes := false;
          afterQuote := true;
        } else {
          field := field + [c];
        }
        i := i + 1;
        continue;
      }
      if c == ',' {
        record := record + [Field(field, quoted)];
        field, quoted, afterQuote := "", false, false;
      } else if c == '\n' {
        record := record + [Field(field, quoted)];
        records := records + [record];
        record, field, quoted, afterQuote := [], "", false, false;
      } else if c == '\r' {
        return Err(CarriageReturn);
      } else if afterQuote {
        return Err(AfterClosingQuote);
      } else if c == '"' {
        if field != "" {
          return Err(StrayQuote);
        }
        inQuotes := true;
        quoted := true;
      } else {
        field := field + [c];
      }
      i := i + 1;
    }
    if inQuotes {
      return Err(Unterminated);
    }
    if field != "" || record != [] || quoted {
      record := record + [Field(field, quoted)];
      records := records + [record];
    }
    return Ok(records);
  }

  // ------------------------------------------------------------- the printer

  function Dup(c: char): string { if c == '"' then ['"', '"'] else [c] }

  /** The text with every quote doubled. */
  function Doubled(s: string): string {
    if s == "" then "" else Doubled(s[..|s| - 1]) + Dup(s[|s| - 1])
  }

  function PrintField(f: Field): string {
    if f.quoted then ['"'] + Doubled(f.text) + ['"'] else f.text
  }

  /** The fields, each followed by a comma. */
  function PrintFields(fields: seq<Field>): string {
    if fields == [] then "" else PrintFields(fields[..|fields| - 1]) + PrintField(fields[|fields| - 1]) + [',']
  }

  function PrintRecord(r: Record): string
    requires r != []
  {
    PrintFields(r[..|r| - 1]) + PrintField(r[|r| - 1]) + ['\n']
  }

  function Print(records: seq<Record>): string
    requires forall i :: 0 <= i < |records| ==> records[i] != []
  {
    if records == [] then "" else Print(records[..|records| - 1]) + PrintRecord(records[|records| - 1])
  }

  predicate Plain(c: char) { c != ',' && c != '\n' && c != '\r' && c != '"' }

  /** A field that needs no quotes, or has them. */
  predicate Printable(f: Field) {
    f.quoted || forall i :: 0 <= i < |f.text| ==> Plain(f.text[i])
  }

  predicate WellFormedRecord(r: Record) {
    r != [] && forall i :: 0 <= i < |r| ==> Printable(r[i])
  }

  predicate WellFormed(records: seq<Record>) {
    forall i :: 0 <= i < |records| ==> WellFormedRecord(records[i])
  }

  // ------------------------------------------------ tokenizing what was printed

  predicate AtFieldStart(st: Scan) { st.field == "" && !st.quoted && !st.inQuotes && !st.afterQuote }

  lemma {:induction false} ScanPlain(t: string, rest: string, st: Scan)
    requires forall i :: 0 <= i < |t| ==> Plain(t[i])
    requires !st.inQuotes && !st.afterQuote
    ensures Tokens(t + rest, st) == Tokens(rest, st.(field := st.field + t))
  {
    if t == "" {
      assert t + rest == rest && st.field + t == st.field;
    } else {
      assert (t + rest)[1..] == t[1..] + rest;
      var next := st.(field := st.field + [t[0]]);
      ScanPlain(t[1..], rest, next);
      assert next.field + t[1..] == st.field + t;
    }
  }

  lemma Associates(a: string, b: string, c: string)
    ensures (a + b) + c == a + (b + c)
  {
  }

  lemma {:induction false} DoubledHead(t: string)
    requires t != ""
    ensures Doubled(t) == Dup(t[0]) + Doubled(t[1..])
  {
    hide Dup;
    var init, last := t[..|t| - 1], t[|t| - 1];
    assert Doubled(t) == Doubled(init) + Dup(last);
    if init == "" {
      assert t[1..] == "" && Doubled("") == "";
      assert Doubled(t) == Dup(last);
    } else {
      DoubledHead(init);
      var rest := t[1..];
      assert init[1..] == rest[..|rest| - 1] && rest[|rest| - 1] == last;
      assert Doubled(rest) == Doubled(init[1..]) + Dup(last);
      Associates(Dup(t[0]), Doubled(init[1..]), Dup(last));
    }
  }

  /** Inside quotes: the doubled text and its closing quote. */
  lemma {:induction false} ScanQuoted(t: string, rest: string, st: Scan)
    requires st.inQuotes && (rest == "" || rest[0] != '"')
    ensures Tokens(Doubled(t) + ['"'] + rest, st)
            == Tokens(rest, st.(field := st.field + t, inQuotes := false, afterQuote := true))
  {
    hide Doubled;
    var whole := Doubled(t) + ['"'] + rest;
    if t == "" {
      assert Doubled(t) == "" by { NothingDoubled(); }
      assert whole == ['"'] + rest;
      assert whole[1..] == rest;
      assert st.field + t == st.field;
    } else {
      DoubledHead(t);
      var next := st.(field := st.field + [t[0]]);
      var more := Doubled(t[1..]) + ['"'] + rest;
      assert whole == Dup(t[0]) + more;
      assert whole[|Dup(t[0])|..] == more;
      ScanQuoted(t[1..], rest, next);
      assert next.field + t[1..] == st.field + t;
    }
  }

  lemma NothingDoubled()
    ensures Doubled("") == ""
  {
  }

  lemma FieldEnds(rest: string, st: Scan)
    requires rest != "" && (rest[0] == ',' || rest[0] == '\n') && !st.inQuotes
    ensures Tokens(rest, st) == Tokens(rest[1..], if rest[0] == ',' then EndField(st) else EndRecord(st))
  {
  }

  lemma OpenQuote(body: string, st: Scan)
    requires AtFieldStart(st)
    ensures Tokens(['"'] + body, st) == Tokens(body, st.(inQuotes := true, quoted := true))
  {
    assert (['"'] + body)[1..] == body;
  }

  lemma ScanField(f: Field, rest: string, st: Scan)
    requires Printable(f) && AtFieldStart(st)
    requires rest != "" && (rest[0] == ',' || rest[0] == '\n')
    ensures Tokens(PrintField(f) + rest, st)
            == Tokens(rest[1..], if rest[0] == ',' then EndField(st.(field := f.text, quoted := f.quoted))
                                 else EndRecord(st.(field := f.text, quoted := f.quoted)))
  {
    hide Tokens, Doubled;
    if f.quoted {
      var body := Doubled(f.text) + ['"'] + rest;
      assert PrintField(f) + rest == ['"'] + body;
      OpenQuote(body, st);
      ScanQuoted(f.text, rest, st.(inQuotes := true, quoted := true));
      FieldEnds(rest, st.(field := f.text, quoted := true, afterQuote := true));
      assert "" + f.text == f.text;
    } else {
      ScanPlain(f.text, rest, st);
      FieldEnds(rest, st.(field := f.text));
      assert "" + f.text == f.text;
    }
  }

  lemma {:induction false} ScanFields(fields: seq<Field>, rest: string, st: Scan)
    requires forall i :: 0 <= i < |fields| ==> Printable(fields[i])
    requires AtFieldStart(st)
    ensures Tokens(PrintFields(fields) + rest, st) == Tokens(rest, st.(record := st.record + fields))
  {
    hide Tokens, PrintField, Printable;
    if fields == [] {
      assert PrintFields(fields) + rest == rest && st.record + fields == st.record;
    } else {
      var n := |fields| - 1;
      var head, last := PrintFields(fields[..n]), PrintField(fields[n]);
      var comma := [','] + rest;
      assert PrintFields(fields) == (head + last) + [','];
      Associates(head + last, [','], rest);
      Associates(head, last, comma);
      ScanFields(fields[..n], last + comma, st);
      var mid := st.(record := st.record + fields[..n]);
      ScanField(fields[n], comma, mid);
      assert comma[1..] == rest;
      assert mid.record + [fields[n]] == st.record + fields;
    }
  }

  lemma ScanRecord(r: Record, rest: string, st: Scan)
    requires WellFormedRecord(r) && AtFieldStart(st) && st.record == []
    ensures Tokens(PrintRecord(r) + rest, st) == Tokens(rest, st.(records := st.records + [r]))
  {
    hide Tokens, PrintFields, PrintField;
    var n := |r| - 1;
    var fields, last := PrintFields(r[..n]), PrintField(r[n]);
    var line := ['\n'] + rest;
    Associates(fields + last, ['\n'], rest);
    Associates(fields, last, line);
    ScanFields(r[..n], last + line, st);
    var mid := st.(record := st.record + r[..n]);
    ScanField(r[n], line, mid);
    assert line[1..] == rest;
    assert st.record + r[..n] + [r[n]] == r;
  }

  lemma {:induction false} ScanRecords(records: seq<Record>, rest: string)
    requires WellFormed(records)
    ensures Tokens(Print(records) + rest, START) == Tokens(rest, START.(records := records))
  {
    hide Tokens, PrintRecord, Printable;
    if records == [] {
      assert Print(records) + rest == rest;
    } else {
      var n := |records| - 1;
      var head := Print(records[..n]);
      Associates(head, PrintRecord(records[n]), rest);
      ScanRecords(records[..n], PrintRecord(records[n]) + rest);
      ScanRecord(records[n], rest, START.(records := records[..n]));
      assert records[..n] + [records[n]] == records;
    }
  }

  /** Tokenizing printed records returns them, texts and quote flags included. */
  lemma PrintedRecordsTokenize(records: seq<Record>)
    requires WellFormed(records) && records != []
    ensures Tokenized(Print(records)) == Ok(records)
  {
    ScanRecords(records, "");
    assert Print(records) + "" == Print(records);
    assert Print(records)[|Print(records)| - 1] == '\n';
  }

  // ------------------------------------------------ printing what was tokenized

  predicate Consistent(st: Scan) {
    && WellFormed(st.records)
    && (forall i :: 0 <= i < |st.record| ==> Printable(st.record[i]))
    && (st.quoted <==> st.inQuotes || st.afterQuote) && !(st.inQuotes && st.afterQuote)
    && (!st.quoted ==> forall i :: 0 <= i < |st.field| ==> Plain(st.field[i]))
  }

  function OpenField(st: Scan): string {
    if st.inQuotes then ['"'] + Doubled(st.field) else PrintField(Field(st.field, st.quoted))
  }

  /** The text the machine has consumed, rebuilt from its state. */
  function Consumed(st: Scan): string
    requires WellFormed(st.records)
  {
    Print(st.records) + PrintFields(st.record) + OpenField(st)
  }

  lemma EndFieldConsumed(st: Scan)
    requires Consistent(st) && !st.inQuotes
    ensures Consistent(EndField(st)) && Consumed(EndField(st)) == Consumed(st) + [',']
  {
    hide Print, PrintField;
    var f := Field(st.field, st.quoted);
    var after := EndField(st);
    assert after.record[..|st.record|] == st.record;
    var head, fields, last := Print(st.records), PrintFields(st.record), PrintField(f);
    assert PrintFields(after.record) == fields + last + [','];
    EmptyFieldPrints();
    assert Consumed(after) == head + (fields + last + [',']) + "";
    assert head + (fields + last + [',']) + "" == head + fields + last + [','];
  }

  lemma EmptyFieldPrints()
    ensures PrintField(Field("", false)) == ""
  {
  }

  lemma EndRecordConsumed(st: Scan)
    requires Consistent(st) && !st.inQuotes
    ensures Consistent(EndRecord(st)) && Consumed(EndRecord(st)) == Consumed(st) + ['\n']
    ensures EndRecord(st).records != [] && WellFormed(EndRecord(st).records)
    ensures Print(EndRecord(st).records) == Consumed(st) + ['\n']
  {
    hide PrintField, PrintFields;
    var f := Field(st.field, st.quoted);
    var r := st.record + [f];
    var after := EndRecord(st);
    assert after.records == st.records + [r];
    assert after.records[..|st.records|] == st.records && r[..|st.record|] == st.record;
    var head, fields, last := Print(st.records), PrintFields(st.record), PrintField(f);
    assert PrintRecord(r) == fields + last + ['\n'];
    assert Print(after.records) == head + (fields + last + ['\n']);
    assert head + (fields + last + ['\n']) == head + fields + last + ['\n'];
    EmptyFieldPrints();
    NothingPrints();
    assert Consumed(after) == Print(after.records) + "" + "";
    assert Print(after.records) + "" + "" == Print(after.records);
  }

  lemma NothingPrints()
    ensures PrintFields([]) == ""
  {
  }

  lemma DoubledSnoc(s: string, c: char)
    ensures Doubled(s + [c]) == Doubled(s) + Dup(c)
  {
    assert (s + [c])[..|s|] == s;
  }

  /** At the end of the text an open record is closed and nothing else is added. */
  lemma FinishPrints(st: Scan)
    requires Consistent(st) && Finish(st).Ok?
    ensures var records := Finish(st).value;
            WellFormed(records) && (Print(records) == Consumed(st) || Print(records) == Consumed(st) + ['\n'])
  {
    hide Print, EndRecord, PrintField;
    EmptyFieldPrints();
    NothingPrints();
    if st.field != "" || st.record != [] || st.quoted {
      EndRecordConsumed(st);
    } else {
      assert Consumed(st) == Print(st.records) + "" + "";
    }
  }

  lemma DoubledQuoteConsumed(st: Scan)
    requires Consistent(st) && st.inQuotes
    ensures var next := st.(field := st.field + ['"']);
            Consistent(next) && OpenField(next) == OpenField(st) + ['"', '"']
  {
    DoubledSnoc(st.field, '"');
    Associates(['"'], Doubled(st.field), ['"', '"']);
  }

  lemma {:induction false} TokensPrint(text: string, st: Scan)
    requires Consistent(st) && Tokens(text, st).Ok?
    ensures var records := Tokens(text, st).value;
            WellFormed(records)
            && (Print(records) == Consumed(st) + text || Print(records) == Consumed(st) + text + ['\n'])
    decreases |text|
  {
    hide Print, Consumed, OpenField, Finish;
    if text == "" {
      FinishPrints(st);
      assert Consumed(st) + text == Consumed(st);
    } else {
      var c := text[0];
      if st.inQuotes && c == '"' && |text| > 1 && text[1] == '"' {
        var next := st.(field := st.field + ['"']);
        DoubledQuoteConsumed(st);
        assert text == ['"', '"'] + text[2..];
        StepConsumed(st, next, ['"', '"'], text[2..], text);
        TokensPrint(text[2..], next);
      } else {
        assert text == [c] + text[1..];
        var next := Advance(st, c);
        AdvanceConsumed(st, c);
        StepConsumed(st, next, [c], text[1..], text);
        TokensPrint(text[1..], next);
      }
    }
  }

  lemma StepConsumed(st: Scan, next: Scan, piece: string, rest: string, text: string)
    requires WellFormed(st.records) && WellFormed(next.records)
    requires text == piece + rest
    requires Consumed(next) == Consumed(st) + piece
             || (next.records == st.records && next.record == st.record && OpenField(next) == OpenField(st) + piece)
    ensures Consumed(next) + rest == Consumed(st) + text
  {
    if next.records == st.records && next.record == st.record && OpenField(next) == OpenField(st) + piece {
      assert Consumed(next) == Consumed(st) + piece;
    }
  }

  /** The state after one character that is not a doubled quote. */
  function Advance(st: Scan, c: char): Scan {
    if st.inQuotes then
      if c == '"' then st.(inQuotes := false, afterQuote := true) else st.(field := st.field + [c])
    else if c == ',' then EndField(st)
    else if c == '\n' then EndRecord(st)
    else if c == '"' then st.(inQuotes := true, quoted := true)
    else st.(field := st.field + [c])
  }

  lemma OpenFieldGrows(st: Scan, c: char)
    requires Consistent(st)
    requires !st.inQuotes ==> c != ',' && c != '\n' && c != '\r' && !st.afterQuote && (c == '"' ==> st.field == "")
    ensures OpenField(Advance(st, c)) == OpenField(st) + [c]
  {
    if st.inQuotes && c != '"' {
      DoubledSnoc(st.field, c);
      Associates(['"'], Doubled(st.field), [c]);
    }
  }

  lemma AdvanceConsumed(st: Scan, c: char)
    requires Consistent(st)
    requires !st.inQuotes && c != ',' && c != '\n' ==> c != '\r' && !st.afterQuote && (c == '"' ==> st.field == "")
    ensures Consistent(Advance(st, c)) && Consumed(Advance(st, c)) == Consumed(st) + [c]
  {
    hide OpenField, Print, PrintFields;
    var next := Advance(st, c);
    if !st.inQuotes && c == ',' {
      EndFieldConsumed(st);
    } else if !st.inQuotes && c == '\n' {
      EndRecordConsumed(st);
    } else {
      assert OpenField(next) == OpenField(st) + [c] by { OpenFieldGrows(st, c); }
      Associates(Print(st.records) + PrintFields(st.record), OpenField(st), [c]);
    }
  }

  /** Printing what an accepted text tokenizes to gives the text back, up to one final LF. */
  lemma AcceptedTextPrints(text: string)
    requires Tokenized(text).Ok?
    ensures var records := Tokenized(text).value;
            WellFormed(records) && records != []
            && (Print(records) == text || Print(records) == text + ['\n'])
  {
    TokensPrint(text, START);
    assert Consumed(START) + text == text;
  }

  // ---------------------------------------------------- the accepted language

  lemma {:induction false} FinalNewlineIsOptional(text: string, st: Scan)
    requires Tokens(text + ['\n'], st).Ok?
    ensures Tokens(text, st).Ok?
    decreases |text|
  {
    if text == "" {
      assert (text + ['\n'])[1..] == "";
    } else {
      assert (text + ['\n'])[1..] == text[1..] + ['\n'];
      if st.inQuotes && text[0] == '"' && |text| > 1 && text[1] == '"' {
        assert (text + ['\n'])[2..] == text[2..] + ['\n'];
        FinalNewlineIsOptional(text[2..], st.(field := st.field + ['"']));
      } else {
        FinalNewlineIsOptional(text[1..], Advance(st, text[0]));
      }
    }
  }

  /** The machine accepts exactly the printed forms of well-formed records, the final LF being optional. */
  lemma AcceptedExactlyWhenPrintable(text: string)
    ensures Tokenized(text).Ok? <==>
            text != "" && exists records: seq<Record> ::
              WellFormed(records) && records != [] && (Print(records) == text || Print(records) == text + ['\n'])
  {
    if Tokenized(text).Ok? {
      AcceptedTextPrints(text);
    }
    if text != "" {
      forall records: seq<Record> | WellFormed(records) && records != []
                                    && (Print(records) == text || Print(records) == text + ['\n'])
        ensures Tokenized(text).Ok?
      {
        PrintedRecordsTokenize(records);
        if Print(records) == text + ['\n'] {
          FinalNewlineIsOptional(text, START);
        }
      }
    }
  }

  // ------------------------------------------------------------- the refusals

  function Quotes(text: string): nat {
    if text == "" then 0 else Quotes(text[1..]) + if text[0] == '"' then 1 else 0
  }

  /** A character that needs no quotes around it. */
  predicate Bare(c: char) { c != '"' && c != ',' && c != '\n' && c != '\r' }

  /** A quote is followed by a bare character, or follows one, at a place. */
  predicate BareAfter(text: string, i: nat) { i + 1 < |text| && text[i] == '"' && Bare(text[i + 1]) }

  predicate BareBefore(text: string, i: nat) { i + 1 < |text| && Bare(text[i]) && text[i + 1] == '"' }

  /** The ground of a refusal met while scanning from a state. */
  ghost predicate Refuses(text: string, st: Scan, e: CsvError) {
    match e
    case EmptyInput => false
    case CarriageReturn => '\r' in text
    case AfterClosingQuote =>
      || (st.afterQuote && !st.inQuotes && text != "" && (Bare(text[0]) || text[0] == '"'))
      || exists i: nat :: BareAfter(text, i)
    case StrayQuote =>
      || (!st.afterQuote && !st.inQuotes && st.field != "" && text != "" && text[0] == '"')
      || exists i: nat :: BareBefore(text, i)
    case Unterminated => Quotes(text) % 2 == if st.inQuotes then 0 else 1
  }

  lemma RefusesLater(text: string, k: nat, st: Scan, next: Scan, e: CsvError)
    requires 1 <= k <= |text| && k <= 2 && Refuses(text[k..], next, e)
    requires k == 2 ==> text[0] == '"' && text[1] == '"' && st.inQuotes && next.inQuotes
    requires k == 1 ==> next == Advance(st, text[0])
    requires k == 1 && !st.inQuotes && text[0] == '"' ==> st.field == "" && !st.afterQuote
    requires k == 1 && !st.inQuotes && Bare(text[0]) ==> !st.afterQuote
    requires k == 1 && st.inQuotes ==> !st.afterQuote && (text[0] == '"' ==> |text| == 1 || text[1] != '"')
    requires k == 1 && !st.inQuotes ==> text[0] != '\r'
    ensures Refuses(text, st, e)
  {
    var rest := text[k..];
    match e {
      case EmptyInput =>
      case CarriageReturn =>
      case AfterClosingQuote =>
        if i: nat :| BareAfter(rest, i) {
          assert BareAfter(text, i + k);
        } else if k == 1 && st.inQuotes && text[0] == '"' {
          assert BareAfter(text, 0);
        }
      case StrayQuote =>
        if i: nat :| BareBefore(rest, i) {
          assert BareBefore(text, i + k);
        } else if k == 1 && !st.inQuotes && Bare(text[0]) {
          assert BareBefore(text, 0);
        }
      case Unterminated =>
        if k == 2 { assert text[1..][1..] == rest; }
    }
  }

  lemma {:induction false} TokensRefuse(text: string, st: Scan)
    requires !(st.inQuotes && st.afterQuote) && Tokens(text, st).Err?
    ensures Refuses(text, st, Tokens(text, st).error)
    decreases |text|
  {
    hide Refuses;
    if text == "" {
      NothingLeft(st);
    } else if st.inQuotes && text[0] == '"' && |text| > 1 && text[1] == '"' {
      var next := st.(field := st.field + ['"']);
      TokensRefuse(text[2..], next);
      RefusesLater(text, 2, st, next, Tokens(text, st).error);
    } else if Stops(text, st) {
      StopsHere(text, st);
    } else {
      TokensRefuse(text[1..], Advance(st, text[0]));
      RefusesLater(text, 1, st, Advance(st, text[0]), Tokens(text, st).error);
    }
  }

  /** The machine refuses the first character. */
  predicate Stops(text: string, st: Scan)
    requires text != ""
  {
    !st.inQuotes && (text[0] == '\r' || (st.afterQuote && (Bare(text[0]) || text[0] == '"'))
                     || (text[0] == '"' && st.field != ""))
  }

  lemma StopsHere(text: string, st: Scan)
    requires text != "" && Stops(text, st)
    ensures Tokens(text, st).Err? && Refuses(text, st, Tokens(text, st).error)
  {
  }

  lemma NothingLeft(st: Scan)
    ensures Tokens("", st).Err? ==> Refuses("", st, Tokens("", st).error)
  {
  }

  /** A refusal tells the truth: which character is out of place, or that the quotes do not pair. */
  lemma RefusalsAreTrue(text: string)
    requires Tokenized(text).Err?
    ensures match Tokenized(text).error
            case EmptyInput => text == ""
            case CarriageReturn => '\r' in text
            case AfterClosingQuote => exists i: nat :: BareAfter(text, i)
            case StrayQuote => exists i: nat :: BareBefore(text, i)
            case Unterminated => Quotes(text) % 2 == 1
  {
    hide Tokens;
    if text != "" {
      TokensRefuse(text, START);
    }
  }
}
