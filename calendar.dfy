/**
 * Calendar and clock arithmetic of the trading calendar and of the cache sweep.
 *
 * A `Date` is a proleptic Gregorian date as Python's `datetime.date` holds it;
 * `Ordinal` is Python's `toordinal()` (0001-01-01 is day 1, a Monday), so
 * `Weekday` is `date.weekday()` (Monday = 0). Clock times are counted in
 * microseconds because `datetime.now()` carries microseconds and the crawler
 * compares such values against whole-minute cut-offs.
 */
module Calendar {
  import opened Wrappers
  import opened Text

  datatype Date = Date(year: int, month: int, day: int)
  datatype DateTime = DateTime(date: Date, hour: int, minute: int, second: int, micro: int)

  predicate IsLeap(y: int) {
    y % 4 == 0 && (y % 100 != 0 || y % 400 == 0)
  }

  function DaysInMonth(y: int, m: int): (n: int)
    requires 1 <= m <= 12
    ensures 28 <= n <= 31
  {
    if m == 2 then (if IsLeap(y) then 29 else 28)
    else if m == 4 || m == 6 || m == 9 || m == 11 then 30
    else 31
  }

  /** What `datetime.date` accepts (MINYEAR = 1, MAXYEAR = 9999). */
  predicate ValidDate(d: Date) {
    1 <= d.year <= 9999 && 1 <= d.month <= 12 && 1 <= d.day <= DaysInMonth(d.year, d.month)
  }

  predicate ValidDateTime(t: DateTime) {
    ValidDate(t.date) && 0 <= t.hour < 24 && 0 <= t.minute < 60 && 0 <= t.second < 60
    && 0 <= t.micro < 1000000
  }

  function DaysBeforeYear(y: int): int {
    var p := y - 1;
    p * 365 + p / 4 - p / 100 + p / 400
  }

  function DaysBeforeMonth(y: int, m: int): int
    requires 1 <= m <= 12
  {
    [0, 31, 59, 90, 120, 151, 181, 212, 243, 273, 304, 334][m - 1]
    + (if m > 2 && IsLeap(y) then 1 else 0)
  }

  /** Python's `date.toordinal()`. */
  function Ordinal(d: Date): int
    requires 1 <= d.month <= 12
  {
    DaysBeforeYear(d.year) + DaysBeforeMonth(d.year, d.month) + d.day
  }

  /** Python's `date.weekday()` of the day with ordinal `n`: Monday = 0 ... Sunday = 6. */
  function Weekday(n: int): (w: int)
    ensures 0 <= w < 7
  {
    (n + 6) % 7
  }

  /**
   * The anchor of `Weekday`: 0001-01-01 (ordinal 1) and 2024-01-01 are
   * Mondays, 2024-01-06 is a Saturday and 2024-01-07 a Sunday.
   */
  lemma WeekdayAnchor()
    ensures Weekday(Ordinal(Date(1, 1, 1))) == 0
    ensures Weekday(Ordinal(Date(2024, 1, 1))) == 0
    ensures Weekday(Ordinal(Date(2024, 1, 6))) == 5
    ensures Weekday(Ordinal(Date(2024, 1, 7))) == 6
  {
  }

  const MicrosPerMinute: int := 60 * 1000000
  const MicrosPerHour: int := 60 * MicrosPerMinute
  const MicrosPerDay: int := 24 * MicrosPerHour

  /** A wall-clock time `hh:mm`, in microseconds after midnight. */
  function ClockTime(h: int, m: int): int {
    (h * 60 + m) * MicrosPerMinute
  }

  /** `t.time()`, in microseconds after midnight. */
  function TimeOfDay(t: DateTime): int {
    ClockTime(t.hour, t.minute) + t.second * 1000000 + t.micro
  }

  /** The instant `t` denotes, in microseconds; differences are `timedelta`s. */
  function Instant(t: DateTime): int
    requires 1 <= t.date.month <= 12
  {
    Ordinal(t.date) * MicrosPerDay + TimeOfDay(t)
  }

  function Midnight(d: Date): DateTime {
    DateTime(d, 0, 0, 0, 0)
  }

  /**
   * A day of the proleptic calendar in any year; `ValidDate` adds the year
   * range outside of which `datetime` arithmetic raises OverflowError.
   */
  predicate CalendarDate(d: Date) {
    1 <= d.month <= 12 && 1 <= d.day <= DaysInMonth(d.year, d.month)
  }

  lemma DivStep4(p: int)
    ensures (p + 1) / 4 == p / 4 + (if (p + 1) % 4 == 0 then 1 else 0)
  {
  }

  lemma DivStep100(p: int)
    ensures (p + 1) / 100 == p / 100 + (if (p + 1) % 100 == 0 then 1 else 0)
  {
  }

  lemma DivStep400(p: int)
    ensures (p + 1) / 400 == p / 400 + (if (p + 1) % 400 == 0 then 1 else 0)
  {
  }

  /** The day the three divisibility tests on `y` add to (or take from) a 365-day year. */
  function LeapCorrection(y: int): int {
    (if y % 4 == 0 then 1 else 0) - (if y % 100 == 0 then 1 else 0) + (if y % 400 == 0 then 1 else 0)
  }

  /** Leap days counted before `y + 1` and before `y` differ by the three divisibility tests on `y`. */
  lemma YearDifference(y: int)
    ensures DaysBeforeYear(y + 1) == DaysBeforeYear(y) +
      365 + LeapCorrection(y)
  {
    DivStep4(y - 1);
    DivStep100(y - 1);
    DivStep400(y - 1);
  }

  lemma LeapTests(y: int)
    ensures LeapCorrection(y) == if IsLeap(y) then 1 else 0
  {
    if y % 400 == 0 {
      assert y == 400 * (y / 400);
      assert y == 100 * (4 * (y / 400));
      assert y == 4 * (100 * (y / 400));
    } else if y % 100 == 0 {
      assert y == 4 * (25 * (y / 100));
    }
  }

  lemma YearLength(y: int)
    ensures DaysBeforeYear(y + 1) == DaysBeforeYear(y) + (if IsLeap(y) then 366 else 365)
  {
    YearDifference(y);
    LeapTests(y);
  }

  lemma MonthLength(y: int, m: int)
    requires 1 <= m < 12
    ensures DaysBeforeMonth(y, m + 1) == DaysBeforeMonth(y, m) + DaysInMonth(y, m)
  {
  }

  /** `d - timedelta(days=1)`. */
  function PrevDay(d: Date): (r: Date)
    requires CalendarDate(d)
    ensures CalendarDate(r) && Ordinal(r) == Ordinal(d) - 1
  {
    if d.day > 1 then Date(d.year, d.month, d.day - 1)
    else if d.month > 1 then
      MonthLength(d.year, d.month - 1);
      Date(d.year, d.month - 1, DaysInMonth(d.year, d.month - 1))
    else
      YearLength(d.year - 1);
      Date(d.year - 1, 12, 31)
  }

  /** `d + timedelta(days=1)`. */
  function NextDay(d: Date): (r: Date)
    requires CalendarDate(d)
    ensures CalendarDate(r) && Ordinal(r) == Ordinal(d) + 1
  {
    if d.day < DaysInMonth(d.year, d.month) then Date(d.year, d.month, d.day + 1)
    else if d.month < 12 then
      MonthLength(d.year, d.month);
      Date(d.year, d.month + 1, 1)
    else
      YearLength(d.year);
      Date(d.year + 1, 1, 1)
  }

  /** `d + timedelta(days=k)`, one day at a time. */
  function AddDays(d: Date, k: int): (r: Date)
    requires CalendarDate(d)
    ensures CalendarDate(r) && Ordinal(r) == Ordinal(d) + k
    decreases if k < 0 then -k else k
  {
    if k == 0 then d
    else if k < 0 then AddDays(PrevDay(d), k + 1)
    else AddDays(NextDay(d), k - 1)
  }

  // ---------------------------------------------------------------------------
  // Trading calendar (rank_crawler.py:347-366, 568-612)
  // ---------------------------------------------------------------------------

  /** `is_a_stock_trading_day`: Monday to Friday; holidays are deliberately ignored. */
  predicate IsTradingDay(n: int) {
    Weekday(n) < 5
  }

  lemma WeekdayStep(n: int)
    ensures Weekday(n - 1) == (Weekday(n) + 6) % 7
  {
  }

  /**
   * The trading day `get_last_trading_day` finds by stepping back from `from`:
   * three days back from a Monday, two from a Sunday, one otherwise.
   */
  function LastTradingDay(from: int): (r: int)
    ensures from - 3 <= r < from && IsTradingDay(r)
    ensures forall d :: r < d < from ==> !IsTradingDay(d)
  {
    WeekdayStep(from);
    WeekdayStep(from - 1);
    WeekdayStep(from - 2);
    var w := Weekday(from);
    if w == 0 then from - 3 else if w == 6 then from - 2 else from - 1
  }

  /** `get_last_trading_day`: step back one day at a time until a trading day. */
  method GetLastTradingDay(from: int) returns (day: int)
    ensures day == LastTradingDay(from)
  {
    day := from;
    while true
      invariant LastTradingDay(from) < day <= from
      invariant forall d :: day <= d < from ==> !IsTradingDay(d)
      decreases day - LastTradingDay(from)
    {
      day := day - 1;
      if IsTradingDay(day) {
        return;
      }
    }
  }

  /** Before this time of day the last trading day is the one that counts (rank_crawler.py:602). */
  const MorningCutoff: int := ClockTime(8, 30)

  /**
   * `get_target_date(days_back)` for the clock reading `now`, as an ordinal:
   * the base day is `now - days_back` days; before 08:30 the answer is the
   * trading day before it, from 08:30 on the base day itself when it is a
   * trading day and otherwise the trading day before it.
   */
  function TargetDate(now: DateTime, daysBack: int): (r: int)
    requires ValidDateTime(now)
    ensures var base := Ordinal(now.date) - daysBack;
      && IsTradingDay(r) && base - 3 <= r <= base
      && (TimeOfDay(now) < MorningCutoff ==> r < base)
      && (TimeOfDay(now) >= MorningCutoff && IsTradingDay(base) ==> r == base)
      && forall d :: r < d < base ==> !IsTradingDay(d)
  {
    var base := Ordinal(now.date) - daysBack;
    if TimeOfDay(now) < MorningCutoff then LastTradingDay(base)
    else if IsTradingDay(base) then base
    else LastTradingDay(base)
  }

  /** `get_target_date`, calling the stepping search. */
  method GetTargetDate(now: DateTime, daysBack: int) returns (day: int)
    requires ValidDateTime(now)
    ensures day == TargetDate(now, daysBack)
  {
    var base := Ordinal(now.date) - daysBack;
    if TimeOfDay(now) < MorningCutoff {
      day := GetLastTradingDay(base);
    } else if IsTradingDay(base) {
      day := base;
    } else {
      day := GetLastTradingDay(base);
    }
  }

  /**
   * `is_trading_time`: a weekday and a clock time within 09:15-11:30 or
   * 13:00-15:00, both ends included.
   */
  predicate IsTradingTime(now: DateTime)
    requires 1 <= now.date.month <= 12
  {
    var t := TimeOfDay(now);
    IsTradingDay(Ordinal(now.date))
    && ((ClockTime(9, 15) <= t <= ClockTime(11, 30)) || (ClockTime(13, 0) <= t <= ClockTime(15, 0)))
  }

  /** Trading time is never at the weekend nor before the 08:30 cut-off. */
  lemma TradingTimeIsAfterCutoff(now: DateTime)
    requires ValidDateTime(now) && IsTradingTime(now)
    ensures IsTradingDay(Ordinal(now.date)) && TimeOfDay(now) >= MorningCutoff
    ensures TargetDate(now, 0) == Ordinal(now.date)
  {
  }

  /**
   * Worked cases of the 08:30 rule in the first week of 2024: Wednesday 07:00
   * gives Tuesday, Monday 07:00 gives the Friday before, Saturday 10:00 gives
   * Friday, Monday 09:00 gives that Monday, and one day back from Tuesday
   * 10:00 gives Monday.
   */
  /** The ordinals of January 2024. */
  lemma January2024(day: int)
    requires 1 <= day <= 31
    ensures Ordinal(Date(2024, 1, day)) == 738885 + day
  {
    assert DaysBeforeYear(2024) == 738885;
  }

  lemma TargetDateExamples()
    ensures TargetDate(DateTime(Date(2024, 1, 3), 7, 0, 0, 0), 0) == Ordinal(Date(2024, 1, 2))
    ensures TargetDate(DateTime(Date(2024, 1, 8), 7, 0, 0, 0), 0) == Ordinal(Date(2024, 1, 5))
    ensures TargetDate(DateTime(Date(2024, 1, 6), 10, 0, 0, 0), 0) == Ordinal(Date(2024, 1, 5))
    ensures TargetDate(DateTime(Date(2024, 1, 8), 9, 0, 0, 0), 0) == Ordinal(Date(2024, 1, 8))
    ensures TargetDate(DateTime(Date(2024, 1, 9), 10, 0, 0, 0), 1) == Ordinal(Date(2024, 1, 8))
  {
    January2024(2);
    January2024(3);
    January2024(5);
    January2024(6);
    January2024(8);
    January2024(9);
  }

  // ---------------------------------------------------------------------------
  // strftime('%Y%m%d') and the two strptime formats of the cache sweep
  // ---------------------------------------------------------------------------

  function Pad2(n: int): (s: string)
    requires 0 <= n < 100
  {
    [DigitChar(n / 10), DigitChar(n % 10)]
  }

  function Pad4(n: int): (s: string)
    requires 0 <= n < 10000
  {
    [DigitChar(n / 10 / 10 / 10), DigitChar(n / 10 / 10 % 10), DigitChar(n / 10 % 10), DigitChar(n % 10)]
  }

  /** `d.strftime('%Y%m%d')` (four-digit years). */
  function FormatDate8(d: Date): (s: string)
    requires ValidDate(d)
    ensures |s| == 8
  {
    Pad4(d.year) + Pad2(d.month) + Pad2(d.day)
  }

  /** `%Y`: exactly four digits. */
  function Year4(s: string): Option<int>
    requires |s| == 4
  {
    if IsDigit(s[0]) && IsDigit(s[1]) && IsDigit(s[2]) && IsDigit(s[3])
    then Some(((DigitValue(s[0]) * 10 + DigitValue(s[1])) * 10 + DigitValue(s[2])) * 10 + DigitValue(s[3]))
    else None
  }

  /** `%m` when the field must fill two characters: `1[0-2]|0[1-9]`. */
  function Month2(a: char, b: char): Option<int> {
    if a == '1' && '0' <= b <= '2' then Some(10 + DigitValue(b))
    else if a == '0' && '1' <= b <= '9' then Some(DigitValue(b))
    else None
  }

  /** `%d` when the field must fill two characters: `3[01]|[12]\d|0[1-9]| [1-9]`. */
  function Day2(a: char, b: char): Option<int> {
    if a == '3' && (b == '0' || b == '1') then Some(30 + DigitValue(b))
    else if (a == '1' || a == '2') && IsDigit(b) then Some(DigitValue(a) * 10 + DigitValue(b))
    else if (a == '0' || a == ' ') && '1' <= b <= '9' then Some(DigitValue(b))
    else None
  }

  /** `%H`, two characters: `2[0-3]|[0-1]\d`. */
  function Hour2(a: char, b: char): Option<int> {
    if a == '2' && '0' <= b <= '3' then Some(20 + DigitValue(b))
    else if (a == '0' || a == '1') && IsDigit(b) then Some(DigitValue(a) * 10 + DigitValue(b))
    else None
  }

  /** `%M`, two characters: `[0-5]\d`. */
  function Minute2(a: char, b: char): Option<int> {
    if '0' <= a <= '5' && IsDigit(b) then Some(DigitValue(a) * 10 + DigitValue(b)) else None
  }

  /** `%S`, two characters: `6[0-1]|[0-5]\d` (60 and 61 are then refused by `datetime`). */
  function Second2(a: char, b: char): Option<int> {
    if a == '6' && (b == '0' || b == '1') then Some(60 + DigitValue(b))
    else if '0' <= a <= '5' && IsDigit(b) then Some(DigitValue(a) * 10 + DigitValue(b))
    else None
  }

  /**
   * `datetime.strptime(s, '%Y%m%d')` on an eight-character string. With eight
   * characters only the parse in which every field takes its full width
   * consumes the whole input; anything else raises ValueError (`None`).
   */
  function ParseDate8(s: string): (r: Option<Date>)
    requires |s| == 8
    ensures r.Some? ==> ValidDate(r.value)
  {
    match (Year4(s[..4]), Month2(s[4], s[5]), Day2(s[6], s[7]))
    case (Some(y), Some(m), Some(d)) =>
      if ValidDate(Date(y, m, d)) then Some(Date(y, m, d)) else None
    case _ => None
  }

  /** `datetime.strptime(s, '%Y%m%d_%H%M%S')` on a fifteen-character string. */
  function ParseStamp15(s: string): (r: Option<DateTime>)
    requires |s| == 15
    ensures r.Some? ==> ValidDateTime(r.value)
  {
    match (ParseDate8(s[..8]), Hour2(s[9], s[10]), Minute2(s[11], s[12]), Second2(s[13], s[14]))
    case (Some(d), Some(h), Some(mi), Some(sec)) =>
      if s[8] == '_' && sec < 60 then Some(DateTime(d, h, mi, sec, 0)) else None
    case _ => None
  }

  lemma Pad4RoundTrip(n: int)
    requires 0 <= n < 10000
    ensures Year4(Pad4(n)) == Some(n)
  {
    var q1 := n / 10;
    var q2 := q1 / 10;
    var q3 := q2 / 10;
    assert n == q1 * 10 + n % 10;
    assert q1 == q2 * 10 + q1 % 10;
    assert q2 == q3 * 10 + q2 % 10;
    assert q3 < 10;
  }

  /** The date key written by a save parses back to that very date. */
  lemma {:induction false} FormatDate8RoundTrip(d: Date)
    requires ValidDate(d)
    ensures ParseDate8(FormatDate8(d)) == Some(d)
  {
    var s := FormatDate8(d);
    assert s[..4] == Pad4(d.year);
    Pad4RoundTrip(d.year);
    assert Month2(s[4], s[5]) == Some(d.month);
    assert Day2(s[6], s[7]) == Some(d.day);
  }

  /** `t.strftime('%Y%m%d_%H%M%S')`: the layout of the older time-stamped cache keys. */
  function FormatStamp15(t: DateTime): (s: string)
    requires ValidDateTime(t)
    ensures |s| == 15 && s[..8] == FormatDate8(t.date) && s[8] == '_'
  {
    FormatDate8(t.date) + "_" + Pad2(t.hour) + Pad2(t.minute) + Pad2(t.second)
  }

  /**
   * A well-formed fifteen-character stamp parses to the whole-second time it
   * spells (strptime has no microseconds in this format).
   */
  lemma {:induction false} ParseStamp15RoundTrip(t: DateTime)
    requires ValidDateTime(t) && t.micro == 0
    ensures ParseStamp15(FormatStamp15(t)) == Some(t)
  {
    var s := FormatStamp15(t);
    FormatDate8RoundTrip(t.date);
    assert Hour2(s[9], s[10]) == Some(t.hour);
    assert Minute2(s[11], s[12]) == Some(t.minute);
    assert Second2(s[13], s[14]) == Some(t.second);
  }

  lemma FormatDate8Digits(d: Date)
    requires ValidDate(d)
    ensures forall i :: 0 <= i < 8 ==> IsDigit(FormatDate8(d)[i])
  {
  }
}
