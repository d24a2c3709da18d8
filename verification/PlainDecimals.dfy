/**
 Exact decimal arithmetic of scripts/acceptance/focus_control_totals.py: `parse_decimal`,
 `format_decimal`, `sum_decimals` and `canonical_decimal`. A value is (unscaled, scale).
 */
module PlainDecimals {
  import opened Basics
  import opened Digits
  import opened Sequences

  /** `$` in a Python pattern also matches before one final LF. */
  function BeforeFinalLf(s: string): string {
    if s != "" && s[|s| - 1] == '\n' then s[..|s| - 1] else s
  }

  datatype Plain = Plain(unscaled: int, scale: nat)

  /** Digits, and optionally a point and digits. */
  function ParseBody(negative: bool, body: string): Option<Plain> {
    var whole := Before(body, '.');
    var frac := if |whole| == |body| then "" else body[|whole| + 1..];
    if whole != "" && AllDigits(whole) && AllDigits(frac) && (|whole| == |body| || frac != "") then
      var n := Parse(whole + frac);
      Some(Plain(if negative then -(n as int) else n, |frac|))
    else None
  }

  /** The grammar of a plain decimal: an optional minus before such a body. */
  function ParseGrammar(t: string): Option<Plain> {
    if t != "" && t[0] == '-' then ParseBody(true, t[1..]) else ParseBody(false, t)
  }

  function ParseDecimal(text: string): Option<Plain> { ParseGrammar(BeforeFinalLf(text)) }

  function Minus(u: int): string { if u < 0 then "-" else "" }

  function FormatBody(n: nat, scale: nat): string {
    if scale == 0 then Print(n)
    else
      var padded := PadStart(Print(n), scale + 1);
      padded[..|padded| - scale] + ("." + padded[|padded| - scale..])
  }

  function FormatDecimal(u: int, scale: nat): string { Minus(u) + FormatBody(Abs(u), scale) }

  function Canonical(text: string): Option<string> {
    match ParseDecimal(text)
    case None => None
    case Some(p) => Some(FormatDecimal(p.unscaled, p.scale))
  }

  // ------------------------------------------------------------- round trips

  lemma PaddedDigits(n: nat, scale: nat)
    ensures var padded := PadStart(Print(n), scale + 1);
            AllDigits(padded) && |padded| > scale && Parse(padded) == n
  {
    hide Print;
    ParsePadStart(Print(n), scale + 1);
    ParsePrint(n);
  }

  lemma WholeBody(negative: bool, whole: string)
    requires AllDigits(whole) && whole != ""
    ensures var n: int := Parse(whole); ParseBody(negative, whole) == Some(Plain(if negative then -n else n, 0))
  {
    hide Parse, Before;
    DigitsWithout(whole, '.');
    BeforeUnique(whole, '.', "");
    assert whole + "" == whole;
  }

  lemma PointBody(negative: bool, whole: string, frac: string)
    requires AllDigits(whole) && AllDigits(frac) && whole != "" && frac != ""
    ensures var n: int := Parse(whole + frac);
            ParseBody(negative, whole + ("." + frac)) == Some(Plain(if negative then -n else n, |frac|))
  {
    hide Parse, Before, AllDigits, Without;
    DigitsWithout(whole, '.');
    var tail := "." + frac;
    BeforeUnique(whole, '.', tail);
    var body := whole + tail;
    assert body[|whole|..] == tail;
    assert body[|whole| + 1..] == tail[1..] == frac;
  }

  lemma FormatBodyParses(negative: bool, n: nat, scale: nat)
    ensures var m: int := n; ParseBody(negative, FormatBody(n, scale)) == Some(Plain(if negative then -m else m, scale))
    ensures var body := FormatBody(n, scale); body != "" && IsDigit(body[0]) && IsDigit(body[|body| - 1])
  {
    hide ParseBody, Parse, Print, PadStart;
    if scale == 0 {
      ParsePrint(n);
      WholeBody(negative, Print(n));
    } else {
      PaddedDigits(n, scale);
      var padded := PadStart(Print(n), scale + 1);
      var whole, frac := padded[..|padded| - scale], padded[|padded| - scale..];
      assert whole + frac == padded;
      PointBody(negative, whole, frac);
      assert FormatBody(n, scale) == whole + ("." + frac);
    }
  }

  lemma NoFinalLf(t: string)
    requires t != "" && IsDigit(t[|t| - 1])
    ensures BeforeFinalLf(t) == t
  {
  }

  /** Every integer at every scale is formatted and parsed back exactly. */
  lemma FormatParses(u: int, scale: nat)
    ensures ParseDecimal(FormatDecimal(u, scale)) == Some(Plain(u, scale))
  {
    hide ParseBody, FormatBody;
    var body := FormatBody(Abs(u), scale);
    FormatBodyParses(u < 0, Abs(u), scale);
    var text := FormatDecimal(u, scale);
    assert text[|text| - 1] == body[|body| - 1];
    NoFinalLf(text);
    if u < 0 {
      assert text[0] == '-' && text[1..] == body;
    } else {
      assert text == body;
    }
  }

  /** Canonical text is stable, and two texts share it exactly when they parse to the same pair. */
  lemma CanonicalIsNormalForm(a: string, b: string)
    requires Canonical(a).Some? && Canonical(b).Some?
    ensures Canonical(Canonical(a).value) == Canonical(a)
    ensures Canonical(a) == Canonical(b) <==> ParseDecimal(a) == ParseDecimal(b)
  {
    hide FormatDecimal, ParseDecimal;
    var p, q := ParseDecimal(a).value, ParseDecimal(b).value;
    FormatParses(p.unscaled, p.scale);
    FormatParses(q.unscaled, q.scale);
  }

  /** Zero never keeps a minus sign. */
  lemma NoNegativeZero(text: string)
    requires ParseDecimal(text).Some? && ParseDecimal(text).value.unscaled == 0
    ensures Canonical(text).value[0] != '-'
  {
    hide ParseDecimal;
    var scale := ParseDecimal(text).value.scale;
    PaddedDigits(0, scale);
  }

  /** The only cells accepted beyond the documented grammar end in one LF. */
  lemma GrammarPlusFinalLf(text: string)
    ensures ParseGrammar(text).Some? ==> ParseDecimal(text) == ParseGrammar(text)
    ensures ParseDecimal(text).Some? && ParseGrammar(text).None? ==>
              text != "" && text[|text| - 1] == '\n' && ParseGrammar(text[..|text| - 1]).Some?
  {
    hide ParseBody;
    var negative := text != "" && text[0] == '-';
    BodyEndsInDigit(negative, if negative then text[1..] else text);
  }

  lemma BodyEndsInDigit(negative: bool, body: string)
    ensures ParseBody(negative, body).Some? ==> body != "" && IsDigit(body[|body| - 1])
  {
    hide Before, Parse;
    var whole := Before(body, '.');
    if ParseBody(negative, body).Some? {
      var last := if |whole| == |body| then whole else body[|whole| + 1..];
      assert body[|body| - 1] == last[|last| - 1];
    }
  }

  // -------------------------------------------------------------------- sums

  /** The rational number a pair stands for. */
  function Value(p: Plain): real { p.unscaled as real / Pow10(p.scale) as real }

  function MaxScale(ps: seq<Plain>): nat {
    if ps == [] then 0
    else
      var before := MaxScale(ps[..|ps| - 1]);
      if ps[|ps| - 1].scale > before then ps[|ps| - 1].scale else before
  }

  function Rescaled(p: Plain, scale: nat): int
    requires p.scale <= scale
  {
    p.unscaled * Pow10(scale - p.scale)
  }

  function SumAt(ps: seq<Plain>, scale: nat): int
    requires MaxScale(ps) <= scale
  {
    if ps == [] then 0 else SumAt(ps[..|ps| - 1], scale) + Rescaled(ps[|ps| - 1], scale)
  }

  function ValueSum(ps: seq<Plain>): real {
    if ps == [] then 0.0 else ValueSum(ps[..|ps| - 1]) + Value(ps[|ps| - 1])
  }

  predicate AllParse(values: seq<string>) {
    forall i :: 0 <= i < |values| ==> ParseDecimal(values[i]).Some?
  }

  function ParseAll(values: seq<string>): (ps: seq<Plain>)
    requires AllParse(values)
    ensures |ps| == |values|
  {
    seq(|values|, i requires 0 <= i < |values| => ParseDecimal(values[i]).value)
  }

  function SumDecimals(values: seq<string>): string
    requires AllParse(values)
  {
    var ps := ParseAll(values);
    FormatDecimal(SumAt(ps, MaxScale(ps)), MaxScale(ps))
  }

  lemma RescaledValue(p: Plain, scale: nat)
    requires p.scale <= scale
    ensures Value(Plain(Rescaled(p, scale), scale)) == Value(p)
  {
    hide Pow10;
    var k := scale - p.scale;
    Pow10Adds(p.scale, k);
    RationalLift(p.unscaled, Pow10(p.scale), Pow10(k));
  }

  lemma RationalLift(u: int, a: nat, b: nat)
    requires a >= 1 && b >= 1
    ensures (u * b) as real / (a * b) as real == u as real / a as real
  {
    var x, y, z := u as real, a as real, b as real;
    assert (u * b) as real == x * z && (a * b) as real == y * z;
    assert y * z > 0.0;
    var q := x / y;
    assert q * y == x;
    assert q * (y * z) == x * z;
  }

  lemma {:induction false} SumAtValue(ps: seq<Plain>, scale: nat)
    requires MaxScale(ps) <= scale
    ensures Value(Plain(SumAt(ps, scale), scale)) == ValueSum(ps)
  {
    hide Rescaled;
    if ps == [] {
      assert 0.0 / Pow10(scale) as real == 0.0;
    } else {
      var n := |ps| - 1;
      SumAtValue(ps[..n], scale);
      RescaledValue(ps[n], scale);
      RationalAdd(SumAt(ps[..n], scale), Rescaled(ps[n], scale), Pow10(scale));
    }
  }

  lemma RationalAdd(a: int, b: int, d: nat)
    requires d >= 1
    ensures (a + b) as real / d as real == a as real / d as real + b as real / d as real
  {
  }

  /** A printed sum is exact: it denotes the rational sum of the printed values, at their largest scale. */
  lemma SumIsExact(values: seq<string>)
    requires AllParse(values)
    ensures var ps := ParseAll(values);
            var total := ParseDecimal(SumDecimals(values));
            total.Some? && total.value.scale == MaxScale(ps) && Value(total.value) == ValueSum(ps)
  {
    hide FormatDecimal, ParseDecimal, Value;
    var ps := ParseAll(values);
    FormatParses(SumAt(ps, MaxScale(ps)), MaxScale(ps));
    SumAtValue(ps, MaxScale(ps));
  }

  // ----------------------------------------------------------- any order

  lemma {:induction false} MaxScaleIsMax(ps: seq<Plain>)
    ensures forall i :: 0 <= i < |ps| ==> ps[i].scale <= MaxScale(ps)
    ensures ps != [] ==> exists i :: 0 <= i < |ps| && ps[i].scale == MaxScale(ps)
    ensures ps == [] ==> MaxScale(ps) == 0
  {
    if ps != [] {
      var n := |ps| - 1;
      MaxScaleIsMax(ps[..n]);
      if ps[n].scale <= MaxScale(ps[..n]) && n > 0 {
        var i :| 0 <= i < n && ps[..n][i].scale == MaxScale(ps[..n]);
        assert ps[i].scale == MaxScale(ps);
      } else {
        assert ps[n].scale == MaxScale(ps);
      }
    }
  }

  lemma MaxScalePermutes(a: seq<Plain>, b: seq<Plain>)
    requires multiset(a) == multiset(b)
    ensures MaxScale(a) == MaxScale(b)
  {
    MaxScaleAtMost(a, b);
    MaxScaleAtMost(b, a);
  }

  lemma MaxScaleAtMost(a: seq<Plain>, b: seq<Plain>)
    requires multiset(a) == multiset(b)
    ensures MaxScale(a) <= MaxScale(b)
  {
    MaxScaleIsMax(a);
    MaxScaleIsMax(b);
    if a != [] {
      var i :| 0 <= i < |a| && a[i].scale == MaxScale(a);
      assert a[i] in multiset(a);
      assert a[i] in multiset(b);
      assert a[i] in b;
    }
  }

  lemma {:induction false} SumAtIsSum(ps: seq<Plain>, scale: nat, terms: seq<int>)
    requires MaxScale(ps) <= scale && |terms| == |ps|
    requires forall i :: 0 <= i < |ps| ==> ps[i].scale <= scale && terms[i] == Rescaled(ps[i], scale)
    ensures SumAt(ps, scale) == Sum(terms)
  {
    hide Rescaled;
    if ps != [] {
      SumAtIsSum(ps[..|ps| - 1], scale, terms[..|ps| - 1]);
    }
  }

  lemma {:induction false} SumAtPermutes(a: seq<Plain>, b: seq<Plain>, scale: nat)
    requires multiset(a) == multiset(b)
    requires MaxScale(a) <= scale && MaxScale(b) <= scale
    ensures SumAt(a, scale) == SumAt(b, scale)
  {
    hide Rescaled;
    assert |a| == |multiset(a)| && |b| == |multiset(b)|;
    if a != [] {
      var n := |a| - 1;
      InitMultiset(a);
      var i := RemoveOne(b, a[n]);
      var rest := b[..i] + b[i + 1..];
      MaxScaleIsMax(b);
      MaxScaleIsMax(rest);
      SumAtPermutes(a[..n], rest, scale);
      SumAtWithoutOne(b, i, scale);
    }
  }

  lemma SumAtWithoutOne(b: seq<Plain>, i: nat, scale: nat)
    requires i < |b| && MaxScale(b) <= scale
    ensures MaxScale(b[..i] + b[i + 1..]) <= scale && b[i].scale <= scale
    ensures SumAt(b, scale) == SumAt(b[..i] + b[i + 1..], scale) + Rescaled(b[i], scale)
  {
    hide Rescaled;
    MaxScaleIsMax(b);
    var rest := b[..i] + b[i + 1..];
    MaxScaleIsMax(rest);
    var terms := seq(|b|, k requires 0 <= k < |b| => Rescaled(b[k], scale));
    SumAtIsSum(b, scale, terms);
    SumAtIsSum(rest, scale, terms[..i] + terms[i + 1..]);
    SumWithoutOne(terms, i);
  }

  /** The printed sum does not depend on the order of the values. */
  lemma SumDecimalsPermutes(a: seq<string>, b: seq<string>)
    requires AllParse(a) && AllParse(b)
    requires multiset(ParseAll(a)) == multiset(ParseAll(b))
    ensures SumDecimals(a) == SumDecimals(b)
  {
    hide FormatDecimal, ParseDecimal;
    MaxScalePermutes(ParseAll(a), ParseAll(b));
    SumAtPermutes(ParseAll(a), ParseAll(b), MaxScale(ParseAll(a)));
  }

  lemma {:induction false} ValueSumAppend(a: seq<Plain>, b: seq<Plain>)
    ensures ValueSum(a + b) == ValueSum(a) + ValueSum(b)
  {
    hide Value;
    if b == [] {
      assert a + b == a;
    } else {
      assert (a + b)[..|a + b| - 1] == a + b[..|b| - 1];
      ValueSumAppend(a, b[..|b| - 1]);
    }
  }
}
