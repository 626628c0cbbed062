/** Time as the program uses it: naive local timestamps and calendar dates.
    A timestamp is a whole number of seconds since 1970-01-01T00:00 local
    time, a calendar date is a number of days since 1970-01-01. Slicing an
    ISO timestamp string to its first ten characters (`fed_at[:10]`) is
    DayOf, and comparing such ISO dates as strings is comparing day
    numbers. */
module Clock {
  import opened Text

  type Timestamp = int
  type Day = int

  const SecondsPerDay: int := 86400
  const SecondsPerMinute: int := 60

  /** The calendar date a timestamp falls on. */
  function DayOf(t: Timestamp): (d: Day)
    ensures d * SecondsPerDay <= t < d * SecondsPerDay + SecondsPerDay
  {
    t / SecondsPerDay
  }

  /** Midnight at the start of a calendar date. */
  function StartOfDay(d: Day): Timestamp
  {
    d * SecondsPerDay
  }

  /** datetime(now.year, now.month, now.day): the midnight before t. */
  function Midnight(t: Timestamp): (m: Timestamp)
    ensures m <= t < m + SecondsPerDay
    ensures DayOf(m) == DayOf(t)
  {
    StartOfDay(DayOf(t))
  }

  /** int(x / y) for a positive y: the quotient truncated toward zero. */
  function TruncDiv(x: int, y: int): (q: int)
    requires y > 0
    ensures x >= 0 ==> q * y <= x < q * y + y
    ensures x < 0 ==> q * y - y < x <= q * y
  {
    if x >= 0 then x / y else -((-x) / y)
  }

  /** int((later - earlier).total_seconds() / 60). */
  function MinutesBetween(earlier: Timestamp, later: Timestamp): int
  {
    TruncDiv(later - earlier, SecondsPerMinute)
  }

  /** strftime("%H:%M"). */
  function FormatHM(t: Timestamp): string
  {
    var secs := t % SecondsPerDay;
    Pad2(secs / 3600) + ":" + Pad2(secs % 3600 / 60)
  }

  /** The proleptic Gregorian (year, month, day) of a day number; the
      conversion datetime.date performs. */
  function CivilFromDays(days: Day): (ymd: (int, int, int))
    ensures 1 <= ymd.1 <= 12 && 1 <= ymd.2 <= 31
  {
    var z := days + 719468;
    var era := z / 146097;
    var doe := z - era * 146097;
    var yoe := (doe - doe / 1460 + doe / 36524 - doe / 146096) / 365;
    var doy := doe - (365 * yoe + yoe / 4 - yoe / 100);
    var mp := (5 * doy + 2) / 153;
    var d := doy - (153 * mp + 2) / 5 + 1;
    var m := if mp < 10 then mp + 3 else mp - 9;
    var y := yoe + era * 400;
    (if m <= 2 then y + 1 else y, m, d)
  }

  /** strftime("%m/%d/%Y"). */
  function FormatMDY(d: Day): string
  {
    var (y, m, dd) := CivilFromDays(d);
    Pad2(m) + "/" + Pad2(dd) + "/" + IntToString(y)
  }

  /** strftime("%Y-%m-%d %H:%M"). */
  function FormatYMDHM(t: Timestamp): string
  {
    var (y, m, dd) := CivilFromDays(DayOf(t));
    IntToString(y) + "-" + Pad2(m) + "-" + Pad2(dd) + " " + FormatHM(t)
  }
}
