/**
 The timestamps of an engagement configuration (src/engagement/config.ts): how a moment is written, which dates exist,
 and when one moment is earlier than another.
 */
module ConfigMoments {
  import opened Basics
  import opened ConfigRules
  import opened Digits
  import opened JsonValues

  /** The written parts of a moment. */
  datatype Moment = Moment(
    year: string,
    month: string,
    day: string,
    hour: string,
    minute: string,
    second: string,
    fraction: string,
    zone: Zone)

  /** Coordinated time, or an offset from it. */
  datatype Zone = Utc | Offset(east: bool, hours: string, minutes: string)

  predicate Figures(s: string, n: nat) { |s| == n && AllDigits(s) }

  function ZoneText(z: Zone): string {
    match z
    case Utc => "Z"
    case Offset(east, hours, minutes) => (if east then "+" else "-") + (hours + (":" + minutes))
  }

  function FractionText(f: string): string { if f == "" then "" else "." + f }

  function DateText(m: Moment): string { m.year + ("-" + (m.month + ("-" + m.day))) }

  function ClockText(m: Moment): string { m.hour + (":" + (m.minute + (":" + m.second))) }

  function Written(m: Moment): string {
    DateText(m) + ("T" + (ClockText(m) + (FractionText(m.fraction) + ZoneText(m.zone))))
  }

  predicate Shaped(m: Moment) {
    && Figures(m.year, 4) && Figures(m.month, 2) && Figures(m.day, 2)
    && Figures(m.hour, 2) && Figures(m.minute, 2) && Figures(m.second, 2) && AllDigits(m.fraction)
    && (m.zone.Offset? ==> Figures(m.zone.hours, 2) && Figures(m.zone.minutes, 2))
  }

  /** Every fourth year, but of the centuries only every fourth. */
  predicate Leap(y: nat) { y % 400 == 0 || (y % 100 != 0 && y % 4 == 0) }

  /** The days of the calendar. */
  predicate DayExists(y: nat, m: nat, d: nat) {
    && 1 <= m <= 12 && 1 <= d
    && (d <= 28 || (d == 29 && (m != 2 || Leap(y))) || (d == 30 && m != 2) || (d == 31 && m in {1, 3, 5, 7, 8, 10, 12}))
  }

  /** The moment is one of the calendar; the program does not know the leap day of the year 0. */
  predicate Real(m: Moment)
    requires Shaped(m)
  {
    var y, mo, d := Parse(m.year), Parse(m.month), Parse(m.day);
    && DayExists(y, mo, d) && !(y == 0 && mo == 2 && d == 29)
    && Parse(m.hour) < 24 && Parse(m.minute) < 60 && Parse(m.second) < 60
  }

  predicate IsMoment(s: string, m: Moment) { Shaped(m) && Real(m) && s == Written(m) }

  ghost predicate Dated(s: string) { exists m :: IsMoment(s, m) }

  // ------------------------------------------------------------ equivalence

  lemma DayMeans(y: nat, m: nat, d: nat)
    requires y <= 9999
    ensures 1 <= m <= 12 && 1 <= d <= DaysInMonth(y, m) <==> DayExists(y, m, d) && !(y == 0 && m == 2 && d == 29)
  {
    if 1 <= y <= 99 {
      EarlyLeapYears(y);
    }
  }

  /** The years 1 to 99 are read as 1901 to 1999, which have the same leap days. */
  lemma EarlyLeapYears(y: nat)
    requires 1 <= y <= 99
    ensures IsLeap(1900 + y) <==> Leap(y)
  {
  }

  predicate ZoneShaped(z: Zone) { z.Offset? ==> Figures(z.hours, 2) && Figures(z.minutes, 2) }

  lemma ZoneIs(s: string) returns (z: Zone)
    requires IsZone(s)
    ensures ZoneShaped(z) && s == ZoneText(z)
  {
    if s == "Z" {
      z := Utc;
    } else {
      z := Offset(s[0] == '+', s[1..3], s[4..]);
      assert s == [s[0]] + (s[1..3] + (":" + s[4..]));
    }
  }

  lemma ZoneRead(z: Zone)
    requires ZoneShaped(z)
    ensures IsZone(ZoneText(z)) && ZoneText(z) != "" && ZoneText(z)[0] != '.' && !IsDigit(ZoneText(z)[0])
  {
    if z.Offset? {
      var s := ZoneText(z);
      assert s[1..3] == z.hours && s[3] == ':' && s[4..] == z.minutes;
    }
  }

  lemma {:induction false} DigitsSkipped(digits: string, rest: string)
    requires AllDigits(digits) && (rest != "" ==> !IsDigit(rest[0]))
    ensures SkipDigits(digits + rest) == rest
  {
    if digits == "" {
      assert digits + rest == rest;
    } else {
      assert (digits + rest)[1..] == digits[1..] + rest;
      DigitsSkipped(digits[1..], rest);
    }
  }

  lemma {:induction false} SkippedAreDigits(s: string) returns (digits: string)
    ensures AllDigits(digits) && s == digits + SkipDigits(s)
    ensures s != "" && IsDigit(s[0]) ==> digits != ""
  {
    if s != "" && IsDigit(s[0]) {
      digits := SkippedAreDigits(s[1..]);
      digits := [s[0]] + digits;
      assert s == [s[0]] + s[1..];
    } else {
      digits := "";
    }
  }

  lemma TailIs(s: string) returns (fraction: string, z: Zone)
    requires IsTimeTail(s)
    ensures AllDigits(fraction) && ZoneShaped(z) && s == FractionText(fraction) + ZoneText(z)
  {
    hide IsZone, SkipDigits, ZoneText, ZoneShaped;
    if |s| >= 2 && s[0] == '.' && IsDigit(s[1]) {
      fraction := SkippedAreDigits(s[1..]);
      z := ZoneIs(SkipDigits(s[1..]));
      assert s == "." + s[1..];
    } else {
      fraction := "";
      z := ZoneIs(s);
    }
  }

  lemma TailRead(fraction: string, z: Zone)
    requires AllDigits(fraction) && ZoneShaped(z)
    ensures IsTimeTail(FractionText(fraction) + ZoneText(z)) && FractionText(fraction) + ZoneText(z) != ""
  {
    hide IsZone, SkipDigits, ZoneText, ZoneShaped;
    ZoneRead(z);
    var zone := ZoneText(z);
    var s := FractionText(fraction) + zone;
    if fraction == "" {
      assert s == zone;
    } else {
      assert s[1..] == fraction + zone;
      DigitsSkipped(fraction, zone);
    }
  }

  lemma MomentOf(s: string) returns (m: Moment)
    requires IsIsoShape(s)
    ensures Shaped(m) && s == Written(m)
    ensures m.year == s[..4] && m.month == s[5..7] && m.day == s[8..10]
    ensures m.hour == s[11..13] && m.minute == s[14..16] && m.second == s[17..19]
  {
    hide IsTimeTail, FractionText, ZoneText, AllDigits;
    var fraction, z := TailIs(s[19..]);
    m := Moment(s[..4], s[5..7], s[8..10], s[11..13], s[14..16], s[17..19], fraction, z);
    assert s[..10] == DateText(m);
    assert s[11..19] == ClockText(m);
    assert s == s[..10] + ([s[10]] + (s[11..19] + s[19..]));
  }

  lemma MomentParts(m: Moment)
    requires Shaped(m)
    ensures var s := Written(m);
            && |DateText(m)| == 10 && |ClockText(m)| == 8
            && IsIsoShape(s)
            && m.year == s[..4] && m.month == s[5..7] && m.day == s[8..10]
            && m.hour == s[11..13] && m.minute == s[14..16] && m.second == s[17..19]
  {
    hide IsTimeTail, FractionText, ZoneText, AllDigits;
    TailRead(m.fraction, m.zone);
    var s, date, clock := Written(m), DateText(m), ClockText(m);
    var tail := FractionText(m.fraction) + ZoneText(m.zone);
    assert s[..10] == date && s[11..19] == clock && s[19..] == tail && s[10] == 'T';
    DateParts(m);
    ClockParts(m);
    assert s[..4] == date[..4] && s[5..7] == date[5..7] && s[8..10] == date[8..] && s[4] == date[4] && s[7] == date[7];
    assert s[11..13] == clock[..2] && s[14..16] == clock[3..5] && s[17..19] == clock[6..];
    assert s[13] == clock[2] && s[16] == clock[5];
  }

  lemma DateParts(m: Moment)
    requires Shaped(m)
    ensures var d := DateText(m);
            |d| == 10 && d[..4] == m.year && d[4] == '-' && d[5..7] == m.month && d[7] == '-' && d[8..] == m.day
  {
    hide AllDigits;
  }

  lemma ClockParts(m: Moment)
    requires Shaped(m)
    ensures var c := ClockText(m);
            |c| == 8 && c[..2] == m.hour && c[2] == ':' && c[3..5] == m.minute && c[5] == ':' && c[6..] == m.second
  {
    hide AllDigits;
  }

  lemma YearBound(year: string)
    requires Figures(year, 4)
    ensures Parse(year) <= 9999
  {
    ParseBound(year);
    assert Pow10(4) == 10000;
  }

  lemma RealMeans(m: Moment)
    requires Shaped(m) && IsIsoShape(Written(m))
    ensures IsCalendarTime(Written(m)) <==> Real(m)
  {
    hide Written, IsIsoShape, Parse, DaysInMonth, DayExists;
    MomentParts(m);
    YearBound(m.year);
    DayMeans(Parse(m.year), Parse(m.month), Parse(m.day));
  }

  /** A text is taken for a timestamp exactly when it writes a moment of the calendar and the runtime reads it. */
  lemma TimestampMeans(parseDate: string -> Option<int>, s: string)
    ensures Timestamp(parseDate, Text(s)).Some? <==> Dated(s) && parseDate(s).Some?
    ensures Dated(s) ==> Timestamp(parseDate, Text(s)) == parseDate(s)
  {
    hide Written, IsIsoShape, IsCalendarTime, Real;
    if IsIsoShape(s) {
      var m := MomentOf(s);
      RealMeans(m);
      assert IsCalendarTime(s) ==> IsMoment(s, m);
    }
    if m :| IsMoment(s, m) {
      MomentParts(m);
      RealMeans(m);
    }
  }

  // ------------------------------------------------------------- the calendar

  /** The days before a year, from the year 0 on. */
  function DaysBeforeYear(y: nat): nat {
    if y == 0 then 0 else DaysBeforeYear(y - 1) + if Leap(y - 1) then 366 else 365
  }

  function MonthLength(y: nat, m: nat): nat {
    if m == 2 then (if Leap(y) then 29 else 28) else if m in {4, 6, 9, 11} then 30 else 31
  }

  function DaysBeforeMonth(y: nat, m: nat): nat {
    if m <= 1 then 0 else DaysBeforeMonth(y, m - 1) + MonthLength(y, m - 1)
  }

  function OffsetMinutes(z: Zone): int
    requires ZoneShaped(z)
  {
    match z
    case Utc => 0
    case Offset(east, hours, minutes) =>
      var n: int := Parse(hours) * 60 + Parse(minutes);
      if east then n else -n
  }

  /** The seconds from the start of the year 0 in coordinated time. */
  function At(m: Moment): real
    requires Shaped(m)
  {
    var y, mo, d := Parse(m.year), Parse(m.month), Parse(m.day);
    var days: int := DaysBeforeYear(y) + DaysBeforeMonth(y, mo) + d;
    var minutes: int := (days * 24 + Parse(m.hour)) * 60 + Parse(m.minute) - OffsetMinutes(m.zone);
    (minutes * 60 + Parse(m.second)) as real + Parse(m.fraction) as real / Pow10(|m.fraction|) as real
  }

  /** Offsets the runtime knows: less than a day. */
  predicate KnownOffset(z: Zone)
    requires ZoneShaped(z)
  {
    z.Offset? ==> Parse(z.hours) < 24 && Parse(z.minutes) < 60
  }

  /**
   The runtime's date parser follows the calendar, in milliseconds: it reads every moment with a known offset, never
   puts a later one first, and tells moments apart that are a millisecond apart.
   */
  ghost predicate FollowsCalendar(parseDate: string -> Option<int>) {
    && (forall s, m :: IsMoment(s, m) && KnownOffset(m.zone) ==> parseDate(s).Some?)
    && (forall s, t, m, n :: IsMoment(s, m) && IsMoment(t, n) && parseDate(s).Some? && parseDate(t).Some? ==>
          && (At(m) <= At(n) ==> parseDate(s).value <= parseDate(t).value)
          && (At(m) + 0.001 <= At(n) ==> parseDate(s).value < parseDate(t).value))
  }

  /** A period as the validator sees it: two dated texts that the runtime reads, the first as the smaller. */
  ghost predicate Forward(parseDate: string -> Option<int>, start: string, end: string) {
    && Dated(start) && Dated(end) && parseDate(start).Some? && parseDate(end).Some?
    && parseDate(start).value < parseDate(end).value
  }

  /** Under a parser that follows the calendar a period runs forward only if its start is the earlier moment, and does
      so if it is earlier by a millisecond and both offsets are known. */
  lemma ForwardMeans(parseDate: string -> Option<int>, start: string, end: string, m: Moment, n: Moment)
    requires FollowsCalendar(parseDate) && IsMoment(start, m) && IsMoment(end, n)
    ensures Forward(parseDate, start, end) ==> At(m) < At(n)
    ensures KnownOffset(m.zone) && KnownOffset(n.zone) && At(m) + 0.001 <= At(n) ==> Forward(parseDate, start, end)
  {
    hide At, IsMoment;
  }

  // ---------------------------------------------------- the premise can be met

  lemma OffsetParts(z: Zone)
    requires z.Offset? && ZoneShaped(z)
    ensures var s := ZoneText(z);
            |s| == 6 && s[0] == (if z.east then '+' else '-') && s[1..3] == z.hours && s[4..] == z.minutes
  {
  }

  lemma ZoneWrittenOnce(y: Zone, z: Zone)
    requires ZoneShaped(y) && ZoneShaped(z) && ZoneText(y) == ZoneText(z)
    ensures y == z
  {
    if y.Offset? { OffsetParts(y); }
    if z.Offset? { OffsetParts(z); }
  }

  lemma TailStart(f: string, z: Zone)
    requires ZoneShaped(z)
    ensures var s := FractionText(f) + ZoneText(z);
            s != "" && (f == "" <==> s[0] != '.') && (if f == "" then s == ZoneText(z) else s[1..] == f + ZoneText(z))
  {
    hide ZoneText, ZoneShaped, IsZone;
    ZoneRead(z);
    FractionStart(f, ZoneText(z));
  }

  lemma FractionStart(f: string, rest: string)
    requires rest != "" && rest[0] != '.'
    ensures var s := FractionText(f) + rest;
            s != "" && (f == "" <==> s[0] != '.') && (if f == "" then s == rest else s[1..] == f + rest)
  {
  }

  lemma TailWrittenOnce(f: string, y: Zone, g: string, z: Zone)
    requires AllDigits(f) && AllDigits(g) && ZoneShaped(y) && ZoneShaped(z)
    requires FractionText(f) + ZoneText(y) == FractionText(g) + ZoneText(z)
    ensures f == g && y == z
  {
    hide ZoneText, ZoneShaped, SkipDigits, AllDigits, FractionText;
    TailStart(f, y);
    TailStart(g, z);
    if f != "" {
      ZoneRead(y);
      ZoneRead(z);
      SamePrefix(f, ZoneText(y), g, ZoneText(z));
    }
    ZoneWrittenOnce(y, z);
  }

  lemma SamePrefix(f: string, s: string, g: string, t: string)
    requires AllDigits(f) && AllDigits(g) && f + s == g + t
    requires s != "" && t != "" && !IsDigit(s[0]) && !IsDigit(t[0])
    ensures f == g && s == t
  {
    hide SkipDigits, AllDigits;
    DigitsSkipped(f, s);
    DigitsSkipped(g, t);
    assert (f + s)[..|f|] == f && (g + t)[..|g|] == g;
  }

  lemma WrittenOnce(m: Moment, n: Moment)
    requires Shaped(m) && Shaped(n) && Written(m) == Written(n)
    ensures m == n
  {
    hide DateText, ClockText, FractionText, ZoneText, AllDigits, IsIsoShape;
    MomentParts(m);
    MomentParts(n);
    var s := Written(m);
    assert s[19..] == FractionText(m.fraction) + ZoneText(m.zone);
    assert s[19..] == FractionText(n.fraction) + ZoneText(n.zone);
    TailWrittenOnce(m.fraction, m.zone, n.fraction, n.zone);
  }

  /** The moment of a dated text in milliseconds. */
  ghost function Milliseconds(s: string): Option<int> {
    if Dated(s) then
      var m :| IsMoment(s, m);
      Some((At(m) * 1000.0).Floor)
    else None
  }

  lemma MillisecondsOf(s: string, m: Moment)
    requires IsMoment(s, m)
    ensures Milliseconds(s) == Some((At(m) * 1000.0).Floor)
  {
    hide At, Written, Shaped, Real;
    assert Dated(s);
    var n :| IsMoment(s, n) && Milliseconds(s) == Some((At(n) * 1000.0).Floor);
    WrittenOnce(m, n);
  }

  lemma FloorsOrdered(a: real, b: real)
    ensures a <= b ==> (a * 1000.0).Floor <= (b * 1000.0).Floor
    ensures a + 0.001 <= b ==> (a * 1000.0).Floor < (b * 1000.0).Floor
  {
  }

  /** A parser that counts milliseconds follows the calendar. */
  lemma MillisecondsFollowTheCalendar()
    ensures FollowsCalendar(s => Milliseconds(s))
  {
    hide At, Written, Shaped, Real, Milliseconds;
    forall s, m | IsMoment(s, m)
      ensures Milliseconds(s) == Some((At(m) * 1000.0).Floor)
    {
      MillisecondsOf(s, m);
    }
    forall s, t, m, n | IsMoment(s, m) && IsMoment(t, n)
      ensures At(m) <= At(n) ==> Milliseconds(s).value <= Milliseconds(t).value
      ensures At(m) + 0.001 <= At(n) ==> Milliseconds(s).value < Milliseconds(t).value
    {
      FloorsOrdered(At(m), At(n));
    }
  }
}
