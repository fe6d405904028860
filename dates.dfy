/** Calendar dates as the back end parses and prints them: `datetime.strptime`
    with the formats `%Y-%m-%d` and `%Y%m%d`, `strftime`, `toordinal`, and the
    whole-day difference `(deadline - now).days`. */
module Dates {
  import opened Common

  datatype Date = Date(year: int, month: int, day: int)

  predicate IsLeapYear(y: int) {
    y % 4 == 0 && (y % 100 != 0 || y % 400 == 0)
  }

  function DaysInMonth(y: int, m: int): int
    requires 1 <= m <= 12
  {
    if m == 2 then (if IsLeapYear(y) then 29 else 28)
    else if m == 4 || m == 6 || m == 9 || m == 11 then 30
    else 31
  }

  /** The dates `datetime.date` accepts (years 1 to 9999). */
  predicate ValidDate(d: Date) {
    1 <= d.year <= 9999 && 1 <= d.month <= 12 && 1 <= d.day <= DaysInMonth(d.year, d.month)
  }

  // ---------------------------------------------------------------------------
  // strptime

  /** A matched directive: its value and how many characters it consumed. */
  datatype Piece = Piece(value: int, width: nat)

  /** The alternatives of the `%m` pattern `1[0-2]|0[1-9]|[1-9]` that match
      at position `p`, in the order the regular-expression engine tries them. */
  function MonthAlternatives(s: string, p: nat): seq<Piece> {
    (if p + 1 < |s| && s[p] == '1' && '0' <= s[p + 1] <= '2' then [Piece(10 + DigitValue(s[p + 1]), 2)] else [])
    + (if p + 1 < |s| && s[p] == '0' && '1' <= s[p + 1] <= '9' then [Piece(DigitValue(s[p + 1]), 2)] else [])
    + (if p < |s| && '1' <= s[p] <= '9' then [Piece(DigitValue(s[p]), 1)] else [])
  }

  /** The alternatives of the `%d` pattern `3[01]|[12]\d|0[1-9]|[1-9]| [1-9]`
      that match at position `p`, in the order they are tried. */
  function DayAlternatives(s: string, p: nat): seq<Piece> {
    (if p + 1 < |s| && s[p] == '3' && '0' <= s[p + 1] <= '1' then [Piece(30 + DigitValue(s[p + 1]), 2)] else [])
    + (if p + 1 < |s| && '1' <= s[p] <= '2' && IsAsciiDigit(s[p + 1]) then [Piece(10 * DigitValue(s[p]) + DigitValue(s[p + 1]), 2)] else [])
    + (if p + 1 < |s| && s[p] == '0' && '1' <= s[p + 1] <= '9' then [Piece(DigitValue(s[p + 1]), 2)] else [])
    + (if p < |s| && '1' <= s[p] <= '9' then [Piece(DigitValue(s[p]), 1)] else [])
    + (if p + 1 < |s| && s[p] == ' ' && '1' <= s[p + 1] <= '9' then [Piece(DigitValue(s[p + 1]), 2)] else [])
  }

  /** The first way the month-and-day part of the pattern matches from `p`:
      each month alternative in turn, then the `-` separator when the format
      has one, then the first day alternative. The result is
      `(month, day, end of the match)`. */
  function MatchMonthDay(s: string, months: seq<Piece>, p: nat, dashed: bool): Option<(int, int, nat)>
    decreases |months|
  {
    if months == [] then None
    else
      var q := p + months[0].width;
      var dayStart := if dashed then q + 1 else q;
      var days := DayAlternatives(s, dayStart);
      if (dashed && !(q < |s| && s[q] == '-')) || days == [] then MatchMonthDay(s, months[1..], p, dashed)
      else Some((months[0].value, days[0].value, dayStart + days[0].width))
  }

  /** `datetime.strptime(s, '%Y-%m-%d')` when `dashed`, else
      `datetime.strptime(s, '%Y%m%d')`: the anchored match of the pattern, the
      "unconverted data remains" check and the calendar check; `None` stands
      for the `ValueError`. */
  function Strptime(s: string, dashed: bool): (r: Option<Date>)
    ensures r.Some? ==> ValidDate(r.value)
  {
    if |s| < 4 || !(IsAsciiDigit(s[0]) && IsAsciiDigit(s[1]) && IsAsciiDigit(s[2]) && IsAsciiDigit(s[3])) then None
    else if dashed && !(4 < |s| && s[4] == '-') then None
    else
      var year := 1000 * DigitValue(s[0]) + 100 * DigitValue(s[1]) + 10 * DigitValue(s[2]) + DigitValue(s[3]);
      var p := if dashed then 5 else 4;
      match MatchMonthDay(s, MonthAlternatives(s, p), p, dashed)
      case None => None
      case Some((m, d, e)) =>
        if e != |s| then None
        else if ValidDate(Date(year, m, d)) then Some(Date(year, m, d))
        else None
  }

  function ParseIso(s: string): Option<Date> { Strptime(s, true) }

  function ParseCompact(s: string): Option<Date> { Strptime(s, false) }

  // ---------------------------------------------------------------------------
  // strftime

  function Pad2(n: int): (r: string)
    requires 0 <= n < 100
  {
    [DigitChar(n / 10), DigitChar(n % 10)]
  }

  function Pad4(n: int): (r: string)
    requires 0 <= n < 10000
  {
    [DigitChar(n / 1000), DigitChar(n / 100 % 10), DigitChar(n / 10 % 10), DigitChar(n % 10)]
  }

  /** `strftime('%Y-%m-%d')`. */
  function FormatIso(d: Date): (r: string)
    requires ValidDate(d)
    ensures |r| == 10
  {
    Pad4(d.year) + "-" + Pad2(d.month) + "-" + Pad2(d.day)
  }

  /** `strftime('%Y%m%d')`. */
  function FormatCompact(d: Date): (r: string)
    requires ValidDate(d)
    ensures |r| == 8
  {
    Pad4(d.year) + Pad2(d.month) + Pad2(d.day)
  }

  /** `strftime('%d/%m/%Y')`. */
  function FormatDmy(d: Date): (r: string)
    requires ValidDate(d)
    ensures |r| == 10
  {
    Pad2(d.day) + "/" + Pad2(d.month) + "/" + Pad4(d.year)
  }

  lemma Pad4Value(y: int)
    requires 0 <= y < 10000
    ensures AllDigits(Pad4(y))
    ensures 1000 * DigitValue(Pad4(y)[0]) + 100 * DigitValue(Pad4(y)[1])
      + 10 * DigitValue(Pad4(y)[2]) + DigitValue(Pad4(y)[3]) == y
  {
    var a, b, c, d := y / 1000, y / 100 % 10, y / 10 % 10, y % 10;
    assert y == 10 * (y / 10) + d;
    assert y / 10 == 10 * (y / 100) + c;
    assert y / 100 == 10 * a + b;
    assert DigitValue(DigitChar(a)) == a && DigitValue(DigitChar(b)) == b;
    assert DigitValue(DigitChar(c)) == c && DigitValue(DigitChar(d)) == d;
  }

  /** The two-digit field a valid month or day prints as is matched by the
      first alternative of its pattern, which consumes both digits. */
  lemma MonthPiece(s: string, p: nat, m: int)
    requires 1 <= m <= 12 && p + 2 <= |s| && s[p..p + 2] == Pad2(m)
    ensures MonthAlternatives(s, p) != [] && MonthAlternatives(s, p)[0] == Piece(m, 2)
  {
    assert s[p] == s[p..p + 2][0] && s[p + 1] == s[p..p + 2][1];
  }

  lemma DayPiece(s: string, p: nat, d: int)
    requires 1 <= d <= 31 && p + 2 <= |s| && s[p..p + 2] == Pad2(d)
    ensures DayAlternatives(s, p) != [] && DayAlternatives(s, p)[0] == Piece(d, 2)
  {
    assert s[p] == s[p..p + 2][0] && s[p + 1] == s[p..p + 2][1];
  }

  /** Parsing what `strftime('%Y-%m-%d')` prints gives the date back. */
  lemma ParseIsoOfFormat(d: Date)
    requires ValidDate(d)
    ensures ParseIso(FormatIso(d)) == Some(d)
  {
    var s := FormatIso(d);
    Pad4Value(d.year);
    assert s[..4] == Pad4(d.year);
    assert s[5..7] == Pad2(d.month);
    assert s[8..10] == Pad2(d.day);
    MonthPiece(s, 5, d.month);
    DayPiece(s, 8, d.day);
  }

  /** Parsing what `strftime('%Y%m%d')` prints gives the date back. */
  lemma ParseCompactOfFormat(d: Date)
    requires ValidDate(d)
    ensures ParseCompact(FormatCompact(d)) == Some(d)
  {
    var s := FormatCompact(d);
    Pad4Value(d.year);
    assert s[..4] == Pad4(d.year);
    assert s[4..6] == Pad2(d.month);
    assert s[6..8] == Pad2(d.day);
    MonthPiece(s, 4, d.month);
    DayPiece(s, 6, d.day);
  }

  /** The month alternative `pc` starting at `p`, followed by the first day
      alternative after it, reads month `m` and day `dd` and ends at `e`. */
  predicate SucceedsWith(s: string, pc: Piece, p: nat, m: int, dd: int, e: nat) {
    var days := DayAlternatives(s, p + pc.width);
    days != [] && m == pc.value && dd == days[0].value && e == p + pc.width + days[0].width
  }

  /** How `MatchMonthDay` succeeds without a separator: with one of the month
      alternatives. */
  lemma {:induction false} MatchMonthDayShape(s: string, months: seq<Piece>, p: nat, m: int, dd: int, e: nat)
    requires MatchMonthDay(s, months, p, false) == Some((m, dd, e))
    ensures exists k :: 0 <= k < |months| && SucceedsWith(s, months[k], p, m, dd, e)
    decreases |months|
  {
    if DayAlternatives(s, p + months[0].width) == [] {
      MatchMonthDayShape(s, months[1..], p, m, dd, e);
      var k :| 0 <= k < |months[1..]| && SucceedsWith(s, months[1..][k], p, m, dd, e);
      assert months[1..][k] == months[k + 1];
    } else {
      assert SucceedsWith(s, months[0], p, m, dd, e);
    }
  }

  /** What a successful `%Y%m%d` parse read. */
  lemma ParseCompactShape(s: string, d: Date)
    requires ParseCompact(s) == Some(d)
    ensures |s| >= 4 && IsAsciiDigit(s[0]) && IsAsciiDigit(s[1]) && IsAsciiDigit(s[2]) && IsAsciiDigit(s[3])
    ensures d.year == 1000 * DigitValue(s[0]) + 100 * DigitValue(s[1]) + 10 * DigitValue(s[2]) + DigitValue(s[3])
    ensures exists pc :: pc in MonthAlternatives(s, 4) && SucceedsWith(s, pc, 4, d.month, d.day, |s|)
  {
    var months := MonthAlternatives(s, 4);
    var r := MatchMonthDay(s, months, 4, false);
    var (m, dd, e) := r.value;
    MatchMonthDayShape(s, months, 4, m, dd, e);
    var k :| 0 <= k < |months| && SucceedsWith(s, months[k], 4, m, dd, e);
    assert months[k] in months;
  }

  /** A month alternative that consumes two characters reads them back as
      its zero-padded value. */
  lemma MonthAlternativeFacts(s: string, p: nat)
    ensures forall pc :: pc in MonthAlternatives(s, p) ==>
      (pc.width == 1 || pc.width == 2) &&
      (pc.width == 2 ==> 1 <= pc.value <= 12 && p + 2 <= |s| && Pad2(pc.value) == s[p..p + 2])
  {
  }

  /** Likewise for a day alternative, in a string of digits. */
  lemma DayAlternativeFacts(s: string, q: nat)
    requires AllDigits(s)
    ensures forall pc :: pc in DayAlternatives(s, q) ==>
      (pc.width == 1 || pc.width == 2) &&
      (pc.width == 2 ==> 1 <= pc.value <= 31 && q + 2 <= |s| && Pad2(pc.value) == s[q..q + 2])
  {
    if q < |s| { assert IsAsciiDigit(s[q]); }
  }

  lemma Pad4OfDigits(s: string)
    requires |s| >= 4 && IsAsciiDigit(s[0]) && IsAsciiDigit(s[1]) && IsAsciiDigit(s[2]) && IsAsciiDigit(s[3])
    ensures var y := 1000 * DigitValue(s[0]) + 100 * DigitValue(s[1]) + 10 * DigitValue(s[2]) + DigitValue(s[3]);
      0 <= y < 10000 && Pad4(y) == s[..4]
  {
    var a, b, c, d := DigitValue(s[0]), DigitValue(s[1]), DigitValue(s[2]), DigitValue(s[3]);
    var y := 1000 * a + 100 * b + 10 * c + d;
    assert y / 1000 == a;
    assert y / 100 == 10 * a + b;
    assert y / 100 % 10 == b;
    assert y / 10 == 100 * a + 10 * b + c;
    assert y / 10 % 10 == c;
    assert y % 10 == d;
  }

  /** An eight-digit string that `strptime` accepts as `%Y%m%d` prints back
      as itself: the parse reads the year, month and day from the fixed
      positions 0-3, 4-5 and 6-7. */
  lemma FormatCompactOfParse(s: string, d: Date)
    requires |s| == 8 && AllDigits(s) && ParseCompact(s) == Some(d)
    ensures FormatCompact(d) == s
  {
    ParseCompactShape(s, d);
    var pc :| pc in MonthAlternatives(s, 4) && SucceedsWith(s, pc, 4, d.month, d.day, |s|);
    CompactFields(s, d, pc);
    assert s == s[..4] + s[4..6] + s[6..8];
  }

  /** The fields an eight-digit match of `%Y%m%d` reads: the year from
      positions 0-3, and both the month and the day take two digits. */
  lemma CompactFields(s: string, d: Date, pc: Piece)
    requires |s| == 8 && AllDigits(s)
    requires d.year == 1000 * DigitValue(s[0]) + 100 * DigitValue(s[1]) + 10 * DigitValue(s[2]) + DigitValue(s[3])
    requires pc in MonthAlternatives(s, 4) && SucceedsWith(s, pc, 4, d.month, d.day, |s|)
    ensures 0 <= d.year < 10000 && 1 <= d.month <= 12 && 1 <= d.day <= 31
    ensures Pad4(d.year) == s[..4] && Pad2(d.month) == s[4..6] && Pad2(d.day) == s[6..8]
  {
    MonthAlternativeFacts(s, 4);
    var q := 4 + pc.width;
    DayAlternativeFacts(s, q);
    var days := DayAlternatives(s, q);
    assert days[0] in days;
    assert pc.width == 2 && days[0].width == 2;
    assert IsAsciiDigit(s[0]) && IsAsciiDigit(s[1]) && IsAsciiDigit(s[2]) && IsAsciiDigit(s[3]);
    Pad4OfDigits(s);
  }

  // ---------------------------------------------------------------------------
  // Day numbers

  function DaysBeforeYear(y: int): int
    requires y >= 1
  {
    var p := y - 1;
    p * 365 + p / 4 - p / 100 + p / 400
  }

  function DaysBeforeMonth(y: int, m: int): int
    requires 1 <= m <= 12
    decreases m
  {
    if m == 1 then 0 else DaysBeforeMonth(y, m - 1) + DaysInMonth(y, m - 1)
  }

  /** `date.toordinal()`: 1 for 0001-01-01, counting up one per day. */
  function Ordinal(d: Date): int
    requires ValidDate(d)
  {
    DaysBeforeYear(d.year) + DaysBeforeMonth(d.year, d.month) + d.day
  }

  /** Calendar order: `a` is an earlier day than `b`. */
  predicate Before(a: Date, b: Date) {
    a.year < b.year
    || (a.year == b.year && a.month < b.month)
    || (a.year == b.year && a.month == b.month && a.day < b.day)
  }

  function YearLength(y: int): int {
    if IsLeapYear(y) then 366 else 365
  }

  /** How the three floor quotients of the leap-year count grow from `p` to
      `p + 1`. */
  lemma QuotientSteps(p: int)
    requires p >= 0
    ensures (p + 1) / 4 == p / 4 + (if (p + 1) % 4 == 0 then 1 else 0)
    ensures (p + 1) / 100 == p / 100 + (if (p + 1) % 100 == 0 then 1 else 0)
    ensures (p + 1) / 400 == p / 400 + (if (p + 1) % 400 == 0 then 1 else 0)
  {
    assert p == 4 * (p / 4) + p % 4;
    assert p == 100 * (p / 100) + p % 100;
    assert p == 400 * (p / 400) + p % 400;
  }

  lemma DaysBeforeYearStep(y: int)
    requires y >= 1
    ensures DaysBeforeYear(y + 1) == DaysBeforeYear(y) + YearLength(y)
  {
    QuotientSteps(y - 1);
  }

  lemma DaysBeforeDecember(y: int)
    ensures DaysBeforeMonth(y, 12) + 31 == YearLength(y)
  {
    var feb := DaysInMonth(y, 2);
    assert DaysBeforeMonth(y, 2) == 31;
    assert DaysBeforeMonth(y, 4) == 62 + feb;
    assert DaysBeforeMonth(y, 6) == 123 + feb;
    assert DaysBeforeMonth(y, 8) == 184 + feb;
    assert DaysBeforeMonth(y, 10) == 245 + feb;
    assert DaysBeforeMonth(y, 12) == 306 + feb;
  }

  /** The days of month `m` all come before the first day of any later month. */
  lemma {:induction false} DaysBeforeMonthOrder(y: int, m: int, m': int)
    requires 1 <= m < m' <= 12
    ensures DaysBeforeMonth(y, m) + DaysInMonth(y, m) <= DaysBeforeMonth(y, m')
    decreases m'
  {
    if m' > m + 1 {
      DaysBeforeMonthOrder(y, m, m' - 1);
    }
  }

  lemma {:induction false} DaysBeforeMonthNonNegative(y: int, m: int)
    requires 1 <= m <= 12
    ensures DaysBeforeMonth(y, m) >= 0
    decreases m
  {
    if m > 1 { DaysBeforeMonthNonNegative(y, m - 1); }
  }

  /** A whole year `y` fits before the first day of any later year. */
  lemma {:induction false} YearBeforeLaterYear(y: int, y': int)
    requires 1 <= y < y'
    ensures DaysBeforeYear(y) + YearLength(y) <= DaysBeforeYear(y')
    decreases y' - y
  {
    DaysBeforeYearStep(y);
    if y' > y + 1 {
      YearBeforeLaterYear(y + 1, y');
      assert YearLength(y + 1) >= 0;
    }
  }

  /** Every day of a year comes before the first day of any later year. */
  lemma OrdinalBelowLaterYear(d: Date, y': int)
    requires ValidDate(d) && d.year < y'
    ensures Ordinal(d) <= DaysBeforeYear(y')
  {
    if d.month < 12 {
      DaysBeforeMonthOrder(d.year, d.month, 12);
    }
    DaysBeforeDecember(d.year);
    YearBeforeLaterYear(d.year, y');
  }

  /** `toordinal` numbers the days in calendar order, so comparing ordinals is
      comparing dates. */
  lemma OrdinalOrder(a: Date, b: Date)
    requires ValidDate(a) && ValidDate(b)
    ensures Before(a, b) <==> Ordinal(a) < Ordinal(b)
    ensures a == b <==> Ordinal(a) == Ordinal(b)
  {
    forall x: Date, y: Date | ValidDate(x) && ValidDate(y) && Before(x, y)
      ensures Ordinal(x) < Ordinal(y)
    {
      DaysBeforeMonthNonNegative(y.year, y.month);
      if x.year < y.year {
        OrdinalBelowLaterYear(x, y.year);
      } else if x.month < y.month {
        DaysBeforeMonthOrder(x.year, x.month, y.month);
      }
    }
  }

  /** The sentinel that unparseable publication dates sort as. */
  const Epoch1900: Date := Date(1900, 1, 1)

  const MicrosPerDay: int := 86_400_000_000

  /** `(deadline - now).days`, where `deadline` is midnight of `d` and `now` is
      a moment in microseconds counted from midnight of day ordinal 0:
      `timedelta.days` rounds towards minus infinity, as Dafny's division by a
      positive number does. */
  function WholeDaysUntil(d: Date, nowMicros: int): int
    requires ValidDate(d)
  {
    (Ordinal(d) * MicrosPerDay - nowMicros) / MicrosPerDay
  }
}
