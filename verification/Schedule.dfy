/** Notification preferences, and the moment of the day from which a user's digest is due. */
module Schedule {
  import opened Options
  import opened GoStrings
  import opened Calendar
  import opened AlertTables
  import opened Dispatch

  // ----- reading a stored time -----

  /** strings.Split with a one-character separator. */
  function Split(s: string, sep: char): (parts: seq<string>)
    ensures parts != []
  {
    if s == "" then [""]
    else
      var rest := Split(s[1..], sep);
      if s[0] == sep then [""] + rest else [[s[0]] + rest[0]] + rest[1..]
  }

  lemma {:induction false} SplitOnce(a: string, b: string, sep: char)
    requires sep !in a && sep !in b
    ensures Split(a + [sep] + b, sep) == [a, b]
  {
    if a == "" {
      assert a + [sep] + b == [sep] + b;
      SplitNever(b, sep);
    } else {
      SplitOnce(a[1..], b, sep);
      assert (a + [sep] + b)[1..] == a[1..] + [sep] + b;
      assert a == [a[0]] + a[1..];
    }
  }

  lemma {:induction false} SplitNever(s: string, sep: char)
    requires sep !in s
    ensures Split(s, sep) == [s]
  {
    if s != "" {
      SplitNever(s[1..], sep);
      assert s == [s[0]] + s[1..];
    }
  }

  /** parseTodayScheduleUTC: hour and minute as Atoi reads them, laid over the current day without a range check. */
  function ParseTodaySchedule(value: string, now: int): Option<int> {
    var parts := Split(TrimSpace(value), ':');
    if |parts| != 2 then None
    else
      match (Atoi(parts[0]), Atoi(parts[1]))
      case (Some(hour), Some(minute)) => Some(DayStart(now) + (60 * hour + minute) * MINUTE)
      case _ => None
  }

  // ----- accepting a time -----

  /** time.Parse with layout "15:04": one or two hour digits, two minute digits, both in range. */
  function ParseClock(s: string): (minuteOfDay: Option<nat>)
    ensures minuteOfDay.Some? ==> minuteOfDay.value < 1440
  {
    var h := HourWidth(s);
    if ClockShaped(s, h) then
      var (hour, minute) := (DigitsValue(s[..h]), DigitsValue(s[h + 1..]));
      if hour < 24 && minute < 60 then Some(60 * hour + minute) else None
    else None
  }

  function HourWidth(s: string): nat {
    if |s| > 1 && IsDigit(s[1]) then 2 else 1
  }

  predicate ClockShaped(s: string, h: nat) {
    |s| == h + 3 && AllDigits(s[..h]) && s[h] == ':' && AllDigits(s[h + 1..])
  }

  datatype Preferences = Preferences(currency: string, notificationsEnabled: bool, mode: string, time: string)

  const DEFAULTS := Preferences("credits", true, DAILY_DIGEST, "09:00")

  /** The checks and defaults of UpdatePreferences; None is the error it returns. */
  function AcceptPreferences(userId: int, currency: string, enabled: bool, mode: string,
                             time: string): Option<Preferences> {
    var currency := if currency == "" then "credits" else currency;
    var mode := if TrimSpace(mode) == "" then DAILY_DIGEST else TrimSpace(mode);
    var time := if TrimSpace(time) == "" then "09:00" else TrimSpace(time);
    if userId <= 0 || (mode != DAILY_DIGEST && mode != IMMEDIATE) || ParseClock(time).None? then None
    else Some(Preferences(currency, enabled, mode, time))
  }

  /** What every stored preference satisfies. */
  predicate ValidPreferences(p: Preferences) {
    (p.mode == DAILY_DIGEST || p.mode == IMMEDIATE) && ParseClock(p.time).Some?
  }

  lemma NineOClock()
    ensures ParseClock("09:00") == Some(540)
    ensures ValidPreferences(DEFAULTS)
  {
    var s := "09:00";
    assert s[..2] == ['0', '9'] && s[3..] == ['0', '0'];
    assert ['0', '9'][..1] == ['0'] && ['0'][..0] == "" && ['0', '0'][..1] == ['0'];
  }

  /** Input is rejected exactly for an id that is not positive, a mode that is neither of the two nor blank, or a time
      that is neither readable nor blank; what is accepted is stored as given, trimmed, with the defaults for blanks. */
  lemma AcceptedAsGiven(userId: int, currency: string, enabled: bool, mode: string, time: string)
    ensures
      var p := AcceptPreferences(userId, currency, enabled, mode, time);
      var (m, t) := (TrimSpace(mode), TrimSpace(time));
      && (p.Some? <==> userId > 0 && m in ["", "daily_digest", "immediate"] && (t == "" || ParseClock(t).Some?))
      && (p.Some? ==>
            && p.value.notificationsEnabled == enabled
            && p.value.currency == (if |currency| == 0 then "credits" else currency)
            && p.value.mode == (if m == "" then "daily_digest" else m)
            && p.value.time == (if t == "" then "09:00" else t))
  {
    hide TrimSpace, ParseClock;
    NineOClock();
  }

  function Two(n: nat): string
    requires n < 100
  {
    [DigitChar(n / 10), DigitChar(n % 10)]
  }

  /** The hour in two digits or one, a colon, and the minute in two. */
  ghost predicate ClockText(s: string, hour: nat, minute: nat) {
    && hour < 24 && minute < 60
    && (s == Two(hour) + ":" + Two(minute) || (hour < 10 && s == [DigitChar(hour)] + ":" + Two(minute)))
  }

  /** A text is a time exactly when it shows an hour below 24 and a minute below 60, and its value is that minute of the
      day. */
  lemma ClockIff(s: string, value: nat)
    ensures ParseClock(s) == Some(value)
      <==> exists hour: nat, minute: nat :: ClockText(s, hour, minute) && value == 60 * hour + minute
  {
    if ParseClock(s) == Some(value) {
      var hour, minute := ClockShows(s);
    }
    hide ClockText, ParseClock;
    if hour: nat, minute: nat :| ClockText(s, hour, minute) && value == 60 * hour + minute {
      ClockReads(hour, minute, s);
    }
  }

  lemma ClockShows(s: string) returns (hour: nat, minute: nat)
    requires ParseClock(s).Some?
    ensures ClockText(s, hour, minute) && ParseClock(s).value == 60 * hour + minute
  {
    var h := HourWidth(s);
    var (a, b) := (s[..h], s[h + 1..]);
    hour, minute := DigitsValue(a), DigitsValue(b);
    TwoDigits(b);
    if h == 2 {
      TwoDigits(a);
    } else {
      OneDigit(a);
    }
    CutAt(s, h);
    hide Two, DigitsValue;
  }

  lemma ClockReads(hour: nat, minute: nat, s: string)
    requires ClockText(s, hour, minute)
    ensures ParseClock(s) == Some(60 * hour + minute)
  {
    TwoReads(minute);
    if s == Two(hour) + ":" + Two(minute) {
      TwoReads(hour);
      assert s[1] == Two(hour)[1];
      assert s[..2] == Two(hour) && s[3..] == Two(minute);
    } else {
      OneReads(hour);
      assert s[1] == ':' && s[..1] == [DigitChar(hour)] && s[2..] == Two(minute);
    }
    hide DigitsValue;
  }

  lemma OneReads(n: nat)
    requires n < 10
    ensures AllDigits([DigitChar(n)]) && DigitsValue([DigitChar(n)]) == n
  {
    assert [DigitChar(n)][..0] == "";
  }

  lemma TwoReads(n: nat)
    requires n < 100
    ensures AllDigits(Two(n)) && DigitsValue(Two(n)) == n
  {
    var s := Two(n);
    OneReads(n / 10);
    assert s[..1] == [DigitChar(n / 10)];
    assert DigitsValue(s) == 10 * DigitsValue(s[..1]) + DigitValue(s[1]);
  }

  lemma TwoDigits(s: string)
    requires |s| == 2 && AllDigits(s)
    ensures DigitsValue(s) < 100 && s == Two(DigitsValue(s))
  {
    OneDigit(s[..1]);
    assert s[..1] == [s[0]];
    var (a, b) := (DigitValue(s[0]), DigitValue(s[1]));
    assert DigitsValue(s) == 10 * a + b;
    assert DigitsValue(s) / 10 == a && DigitsValue(s) % 10 == b;
    DigitBack(s[0]);
    DigitBack(s[1]);
  }

  lemma OneDigit(s: string)
    requires |s| == 1 && AllDigits(s)
    ensures DigitsValue(s) < 10 && s == [DigitChar(DigitsValue(s))] && DigitsValue(s) == DigitValue(s[0])
  {
    assert s[..0] == "";
    assert DigitsValue(s) == DigitValue(s[0]);
    DigitBack(s[0]);
  }

  lemma AcceptedIsValid(userId: int, currency: string, enabled: bool, mode: string, time: string)
    ensures var p := AcceptPreferences(userId, currency, enabled, mode, time); p.Some? ==> ValidPreferences(p.value)
  {
  }

  // ----- accepted times against the schedule parser -----

  lemma {:induction false} FewDigitsAreSmall(s: string)
    requires AllDigits(s) && |s| <= 2
    ensures DigitsValue(s) < 100
  {
    if s != "" {
      assert DigitsValue(s[..|s| - 1]) <= 9 by {
        if |s| == 2 {
          assert s[..1][..0] == "";
        }
      }
    }
  }

  lemma AtoiOfFewDigits(s: string)
    requires AllDigits(s) && 1 <= |s| <= 2
    ensures Atoi(s) == Some(DigitsValue(s))
  {
    assert IsDigit(s[0]) && s[0] != '-' && s[0] != '+';
    FewDigitsAreSmall(s);
  }

  lemma ClockSplits(s: string, h: nat)
    requires 1 <= h <= 2 && ClockShaped(s, h)
    ensures TrimSpace(s) == s && Split(s, ':') == [s[..h], s[h + 1..]]
  {
    ClockTrims(s, h);
    hide TrimSpace;
    CutAt(s, h);
    SplitDigits(s[..h], s[h + 1..]);
  }

  lemma CutAt(s: string, h: nat)
    requires h < |s|
    ensures s == s[..h] + [s[h]] + s[h + 1..]
  {
  }

  lemma SplitDigits(a: string, b: string)
    requires AllDigits(a) && AllDigits(b)
    ensures Split(a + [':'] + b, ':') == [a, b]
  {
    NoColonInDigits(a);
    NoColonInDigits(b);
    hide AllDigits;
    SplitOnce(a, b, ':');
  }

  lemma NoColonInDigits(s: string)
    requires AllDigits(s)
    ensures ':' !in s
  {
  }

  lemma ClockTrims(s: string, h: nat)
    requires 1 <= h <= 2 && ClockShaped(s, h)
    ensures TrimSpace(s) == s
  {
    hide Trim;
    assert s[0] == s[..h][0] && s[|s| - 1] == s[h + 1..][1];
    DigitIsNoSpace(s[0]);
    DigitIsNoSpace(s[|s| - 1]);
    TrimFixed(s, IsSpace);
  }

  lemma DigitIsNoSpace(c: char)
    requires IsDigit(c)
    ensures !IsSpace(c)
  {
  }

  /** Every accepted time is read back as its minute of the current UTC day, whatever the moment. */
  lemma AcceptedTimeIsToday(time: string, now: int)
    requires ParseClock(time).Some?
    ensures ParseTodaySchedule(time, now) == Some(DayStart(now) + ParseClock(time).value * MINUTE)
    ensures SameDay(ParseTodaySchedule(time, now).value, now)
  {
    hide Split, TrimSpace, Atoi, DigitsValue, DayStart, SameDay;
    var h := HourWidth(time);
    ClockSplits(time, h);
    AtoiOfFewDigits(time[..h]);
    AtoiOfFewDigits(time[h + 1..]);
    MinuteInsideDay(now, ParseClock(time).value);
  }

  /** Spaces around a stored time make no difference. */
  lemma PaddedTimeIsToday(time: string, now: int)
    requires ParseClock(TrimSpace(time)).Some?
    ensures ParseTodaySchedule(time, now) == Some(DayStart(now) + ParseClock(TrimSpace(time)).value * MINUTE)
  {
    hide Split, TrimSpace, Atoi, ParseClock, DayStart;
    TrimSpaceTwice(time);
    AcceptedTimeIsToday(TrimSpace(time), now);
  }

  lemma MinuteInsideDay(now: int, minute: nat)
    requires minute < 1440
    ensures SameDay(DayStart(now) + minute * MINUTE, now)
  {
    var t := DayStart(now) + minute * MINUTE;
    assert DayStart(now) <= t < DayStart(now) + DAY;
    assert DayOf(now) * DAY <= t < DayOf(now) * DAY + DAY;
    assert DayOf(t) == DayOf(now);
  }

  // ----- due or not -----

  /** shouldProcessDigest; None is a failed read of the dispatch state. */
  function ShouldProcessDigest(time: string, row: Option<Digest>, readOk: bool, now: int): Option<bool> {
    match ParseTodaySchedule(time, now)
    case None => Some(false)
    case Some(scheduledAt) =>
      if now < scheduledAt then Some(false)
      else if !readOk then None
      else Some(!(row.Some? && row.value.processedOn == Some(DayOf(now))))
  }

  /** A user with an accepted time is due exactly from that minute to the end of the day, until processed. */
  lemma DueWindow(time: string, row: Option<Digest>, now: int)
    requires ParseClock(time).Some?
    ensures ShouldProcessDigest(time, row, true, now) == Some(true) <==>
      && DayStart(now) + ParseClock(time).value * MINUTE <= now
      && !(row.Some? && row.value.processedOn == Some(DayOf(now)))
    ensures ShouldProcessDigest(time, row, true, now) != None
  {
    AcceptedTimeIsToday(time, now);
  }
}
