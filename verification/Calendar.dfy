/** UTC instants, calendar days and the "2006-01-02" wire form of a DATE column.
    An instant counts nanoseconds from 0000-01-01 00:00 UTC; a day counts days from the same origin. */
module Calendar {
  import opened Options
  import opened GoStrings

  const MINUTE := 60_000_000_000
  const DAY := 1440 * MINUTE

  /** The first day after 9999-12-31. */
  const END_OF_DAYS := 3_652_425

  type Day = n: int | 0 <= n < END_OF_DAYS

  /** dayStartUTC and sameDayUTC work on the day that holds an instant. */
  function DayOf(t: int): int {
    t / DAY
  }

  function DayStart(t: int): (start: int)
    ensures start <= t < start + DAY && DayOf(start) == DayOf(t)
  {
    DayOf(t) * DAY
  }

  lemma DayOfMonotone(a: int, b: int)
    requires a <= b
    ensures DayOf(a) <= DayOf(b)
  {
  }

  predicate SameDay(a: int, b: int) {
    DayStart(a) == DayStart(b)
  }

  lemma SameDayIsSameIndex(a: int, b: int)
    ensures SameDay(a, b) <==> DayOf(a) == DayOf(b)
  {
  }

  // ----- the Gregorian calendar -----

  datatype Date = Date(year: nat, month: nat, day: nat)

  predicate IsLeap(y: nat) {
    y % 4 == 0 && (y % 100 != 0 || y % 400 == 0)
  }

  function DaysIn(y: nat, m: nat): (n: nat)
    ensures 28 <= n <= 31
  {
    if m == 2 then (if IsLeap(y) then 29 else 28)
    else if m == 4 || m == 6 || m == 9 || m == 11 then 30
    else 31
  }

  predicate ValidDate(d: Date) {
    1 <= d.month <= 12 && 1 <= d.day <= DaysIn(d.year, d.month)
  }

  /** The days of the months before m; month 13 closes the year. */
  function DaysBeforeMonth(y: nat, m: nat): nat
    requires 1 <= m <= 13
  {
    [0, 31, 59, 90, 120, 151, 181, 212, 243, 273, 304, 334, 365][m - 1] + if m > 2 && IsLeap(y) then 1 else 0
  }

  function DaysInYear(y: nat): nat {
    if IsLeap(y) then 366 else 365
  }

  function DaysBeforeYear(y: nat): nat {
    365 * y + (y + 3) / 4 - (y + 99) / 100 + (y + 399) / 400
  }

  /** Rounding up to a multiple of c moves on exactly after a multiple of c. */
  lemma RoundUpSteps(y: nat, c: nat)
    requires c == 4 || c == 100 || c == 400
    ensures (y + c) / c == (y + c - 1) / c + if y % c == 0 then 1 else 0
  {
  }

  lemma RemainderIs(y: nat, c: nat, q: nat, r: nat)
    requires c == 4 || c == 100
    requires y == c * q + r && r < c
    ensures y % c == r
  {
  }

  lemma MultiplesNest(y: nat)
    ensures y % 400 == 0 ==> y % 100 == 0
    ensures y % 100 == 0 ==> y % 4 == 0
  {
    if y % 400 == 0 {
      RemainderIs(y, 100, 4 * (y / 400), 0);
    }
    if y % 100 == 0 {
      RemainderIs(y, 4, 25 * (y / 100), 0);
    }
  }

  lemma YearLength(y: nat)
    ensures DaysBeforeYear(y + 1) == DaysBeforeYear(y) + DaysInYear(y)
    ensures DaysBeforeMonth(y, 13) == DaysInYear(y)
  {
    RoundUpSteps(y, 4);
    RoundUpSteps(y, 100);
    RoundUpSteps(y, 400);
    MultiplesNest(y);
  }

  lemma MonthLength(y: nat, m: nat)
    requires 1 <= m <= 12
    ensures DaysBeforeMonth(y, m + 1) == DaysBeforeMonth(y, m) + DaysIn(y, m)
  {
  }

  lemma {:induction false} YearsOrdered(a: nat, b: nat)
    requires a < b
    ensures DaysBeforeYear(a) + DaysInYear(a) <= DaysBeforeYear(b)
    decreases b - a
  {
    YearLength(a);
    if a + 1 < b {
      YearsOrdered(a + 1, b);
    }
  }

  lemma {:induction false} MonthsOrdered(y: nat, a: nat, b: nat)
    requires 1 <= a < b <= 13
    ensures DaysBeforeMonth(y, a) + DaysIn(y, a) <= DaysBeforeMonth(y, b)
    decreases b - a
  {
    MonthLength(y, a);
    if a + 1 < b {
      MonthsOrdered(y, a + 1, b);
    }
  }

  /** The number of days before a date. */
  function DayNumber(d: Date): nat
    requires ValidDate(d)
  {
    DaysBeforeYear(d.year) + DaysBeforeMonth(d.year, d.month) + d.day - 1
  }

  lemma WithinYear(d: Date)
    requires ValidDate(d)
    ensures DaysBeforeYear(d.year) <= DayNumber(d) < DaysBeforeYear(d.year) + DaysInYear(d.year)
  {
    YearLength(d.year);
    MonthsOrdered(d.year, d.month, 13);
  }

  predicate Earlier(a: Date, b: Date) {
    || a.year < b.year
    || (a.year == b.year && (a.month < b.month || (a.month == b.month && a.day < b.day)))
  }

  lemma DayNumberOrdered(a: Date, b: Date)
    requires ValidDate(a) && ValidDate(b) && Earlier(a, b)
    ensures DayNumber(a) < DayNumber(b)
  {
    WithinYear(a);
    WithinYear(b);
    if a.year < b.year {
      YearsOrdered(a.year, b.year);
    } else if a.month < b.month {
      MonthsOrdered(a.year, a.month, b.month);
    }
  }

  /** The calendar date of the n-th day after the start of month m of year y. */
  function MonthDate(y: nat, m: nat, n: nat): (d: Date)
    requires 1 <= m <= 12 && DaysBeforeMonth(y, m) + n < DaysBeforeMonth(y, 13)
    ensures ValidDate(d) && d.year == y
    ensures DayNumber(d) == DaysBeforeYear(y) + DaysBeforeMonth(y, m) + n
    decreases 12 - m
  {
    MonthLength(y, m);
    if n < DaysIn(y, m) then Date(y, m, n + 1) else MonthDate(y, m + 1, n - DaysIn(y, m))
  }

  /** The calendar date of the n-th day after the start of year y. */
  function YearDate(y: nat, n: nat): (d: Date)
    ensures ValidDate(d) && DayNumber(d) == DaysBeforeYear(y) + n && d.year >= y
    decreases n
  {
    YearLength(y);
    if n < DaysInYear(y) then MonthDate(y, 1, n) else YearDate(y + 1, n - DaysInYear(y))
  }

  // ----- the wire form -----

  function TwoDigits(n: nat): (s: string)
    requires n < 100
    ensures |s| == 2 && AllDigits(s)
  {
    [DigitChar(n / 10), DigitChar(n % 10)]
  }

  function Two(s: string): (n: nat)
    requires |s| == 2 && AllDigits(s)
    ensures n < 100 && TwoDigits(n) == s
  {
    10 * DigitValue(s[0]) + DigitValue(s[1])
  }

  function FourDigits(n: nat): (s: string)
    requires n < 10000
    ensures |s| == 4 && AllDigits(s)
  {
    TwoDigits(n / 100) + TwoDigits(n % 100)
  }

  function Four(s: string): (n: nat)
    requires |s| == 4 && AllDigits(s)
    ensures n < 10000
  {
    100 * Two(s[..2]) + Two(s[2..])
  }

  function FormatCivil(d: Date): string
    requires d.year < 10000 && d.month < 100 && d.day < 100
  {
    FourDigits(d.year) + ("-" + (TwoDigits(d.month) + ("-" + TwoDigits(d.day))))
  }

  /** time.Parse with layout "2006-01-02": exactly four, two and two digits, naming a real date. */
  function ParseCivil(s: string): (r: Option<Date>)
    ensures r.Some? ==> ValidDate(r.value) && r.value.year < 10000
  {
    if |s| == 10 && AllDigits(s[..4]) && s[4] == '-' && AllDigits(s[5..7]) && s[7] == '-' && AllDigits(s[8..]) then
      var d := Date(Four(s[..4]), Two(s[5..7]), Two(s[8..]));
      if ValidDate(d) then Some(d) else None
    else None
  }

  function ParseDate(s: string): Option<nat> {
    match ParseCivil(s)
    case None => None
    case Some(d) => Some(DayNumber(d))
  }

  /** The calendar date of a DATE column. */
  function DateOf(n: Day): (d: Date)
    ensures ValidDate(d) && DayNumber(d) == n && d.year < 10000
  {
    WithinYear(YearDate(0, n));
    YearDate(0, n)
  }

  /** The CollectedOn text of a DATE column. */
  function FormatDate(n: Day): string {
    FormatCivil(DateOf(n))
  }

  lemma TwoReadsBack(n: nat)
    requires n < 100
    ensures Two(TwoDigits(n)) == n
  {
  }

  lemma FourReadsBack(n: nat)
    requires n < 10000
    ensures Four(FourDigits(n)) == n
  {
    var s := FourDigits(n);
    assert s[..2] == TwoDigits(n / 100) && s[2..] == TwoDigits(n % 100);
    TwoReadsBack(n / 100);
    TwoReadsBack(n % 100);
  }

  lemma CivilReadsBack(d: Date)
    requires ValidDate(d) && d.year < 10000
    ensures ParseCivil(FormatCivil(d)) == Some(d)
  {
    var s := FormatCivil(d);
    assert s[..4] == FourDigits(d.year) && s[5..7] == TwoDigits(d.month) && s[8..] == TwoDigits(d.day);
    FourReadsBack(d.year);
    TwoReadsBack(d.month);
    TwoReadsBack(d.day);
  }

  /** What the catalog writes for a DATE is what the alert engine parses back. */
  lemma DateReadsBack(n: Day)
    ensures ParseDate(FormatDate(n)) == Some(n)
  {
    CivilReadsBack(DateOf(n));
  }

  lemma TwoOrder(a: string, b: string)
    requires |a| == |b| == 2 && AllDigits(a) && AllDigits(b)
    ensures Less(a, b) <==> Two(a) < Two(b)
    ensures a == b <==> Two(a) == Two(b)
  {
    assert a == [a[0]] + [a[1]] && b == [b[0]] + [b[1]];
    LessByChunks([a[0]], [b[0]], [a[1]], [b[1]]);
  }

  lemma FourOrder(a: string, b: string)
    requires |a| == |b| == 4 && AllDigits(a) && AllDigits(b)
    ensures Less(a, b) <==> Four(a) < Four(b)
    ensures a == b <==> Four(a) == Four(b)
  {
    assert a == a[..2] + a[2..] && b == b[..2] + b[2..];
    LessByChunks(a[..2], b[..2], a[2..], b[2..]);
    TwoOrder(a[..2], b[..2]);
    TwoOrder(a[2..], b[2..]);
  }

  lemma CivilOrder(s: string, t: string)
    requires ParseCivil(s).Some? && ParseCivil(t).Some?
    ensures Less(s, t) <==> Earlier(ParseCivil(s).value, ParseCivil(t).value)
    ensures s == t <==> ParseCivil(s) == ParseCivil(t)
  {
    var (sd, td) := (s[8..], t[8..]);
    var (sm, tm) := (s[5..7], t[5..7]);
    var (sy, ty) := (s[..4], t[..4]);
    assert s == sy + ("-" + (sm + ("-" + sd)));
    assert t == ty + ("-" + (tm + ("-" + td)));
    LessByChunks(sy, ty, "-" + (sm + ("-" + sd)), "-" + (tm + ("-" + td)));
    LessByChunks("-", "-", sm + ("-" + sd), tm + ("-" + td));
    LessByChunks(sm, tm, "-" + sd, "-" + td);
    LessByChunks("-", "-", sd, td);
    FourOrder(sy, ty);
    TwoOrder(sm, tm);
    TwoOrder(sd, td);
  }

  /** Sorting dates as strings sorts them as days, and no two texts name one day. */
  lemma StringOrderIsCalendarOrder(s: string, t: string)
    requires ParseDate(s).Some? && ParseDate(t).Some?
    ensures Less(s, t) <==> ParseDate(s).value < ParseDate(t).value
    ensures s == t <==> ParseDate(s) == ParseDate(t)
  {
    CivilOrder(s, t);
    var (a, b) := (ParseCivil(s).value, ParseCivil(t).value);
    if Earlier(a, b) {
      DayNumberOrdered(a, b);
    } else if Earlier(b, a) {
      DayNumberOrdered(b, a);
    } else {
      assert a == b;
    }
  }

  /** A text names a day exactly when it is the text the catalog writes for that day. */
  lemma ParseDateIff(s: string, n: nat)
    ensures ParseDate(s) == Some(n) <==> n < END_OF_DAYS && s == FormatDate(n)
  {
    if ParseDate(s) == Some(n) {
      var d := ParseCivil(s).value;
      var last := Date(9999, 12, 31);
      assert DayNumber(last) == END_OF_DAYS - 1;
      if Earlier(d, last) {
        DayNumberOrdered(d, last);
      }
      DateReadsBack(n);
      StringOrderIsCalendarOrder(s, FormatDate(n));
    } else if n < END_OF_DAYS {
      DateReadsBack(n);
    }
  }
}
