/** `parse_timestamp` of src/ShiroSightUtilities/timestamps.py (and its copy
    `LogCollector._parse_timestamp` in functions/collect-logs/app.py):
    `datetime.strptime(s, "%Y-%m-%dT%H:%M:%S.%fZ")` followed by
    `int(dt.timestamp() * 1000)`, with the naive date-time read as UTC and the
    arithmetic done exactly.

    Also the inverse direction, `datetime.fromtimestamp(ms / 1000, tz=utc)`,
    used by the validation of src/collector/types.py. */
module Timestamps {
  import opened Common
  import opened Calendar

  /** A `datetime` value, field by field. */
  datatype DateTime = DateTime(year: int, month: int, day: int,
                               hour: int, minute: int, second: int, microsecond: int)

  /** The values `datetime(...)` accepts (MINYEAR 1 .. MAXYEAR 9999). */
  predicate ValidDateTime(t: DateTime) {
    1 <= t.year <= 9999 && ValidDate(t.year, t.month, t.day) &&
    0 <= t.hour <= 23 && 0 <= t.minute <= 59 && 0 <= t.second <= 59 &&
    0 <= t.microsecond <= 999999
  }

  /** Day number of 1970-01-01. */
  const EpochDay := 719162
  const MillisPerDay := 86400000

  /** Microseconds since 1970-01-01T00:00:00 UTC. */
  function EpochMicros(t: DateTime): int
    requires 1 <= t.month <= 12
  {
    ((DayNumber(t.year, t.month, t.day) - EpochDay) * 86400 + t.hour * 3600 + t.minute * 60 + t.second) * 1000000
    + t.microsecond
  }

  /** `int(x)` of the exact quotient `micros / 1000`: truncation toward zero. */
  function TruncMillis(micros: int): int {
    if micros >= 0 then micros / 1000 else -((-micros) / 1000)
  }

  /** `int(dt.timestamp() * 1000)` for a date-time read as UTC. */
  function EpochMillis(t: DateTime): int
    requires 1 <= t.month <= 12
  {
    TruncMillis(EpochMicros(t))
  }

  // ---------------------------------------------------------------------
  // The text format "%Y-%m-%dT%H:%M:%S.%fZ"

  /** Both are Python `ValueError`s: the text does not have the layout
      (`time data ... does not match format ...`), or the fields do not make
      a date-time (`day is out of range for month`, year 0, second 60/61). */
  datatype ParseError = FormatMismatch | FieldOutOfRange

  /** A two-digit field whose value lies in `lo..hi`. */
  predicate TwoDigitsIn(f: string, lo: int, hi: int) {
    |f| == 2 && AllDigits(f) && lo <= DigitsValue(f) <= hi
  }

  /** What `strptime`'s pattern for the format accepts (with two-digit
      month, day, hour, minute and second fields). The pattern is compiled
      case-insensitively, so `t` and `z` pass for `T` and `Z`; `%f` takes one
      to six digits; `%S` lets 60 and 61 through, for `datetime` to reject. */
  predicate MatchesFormat(s: string) {
    22 <= |s| <= 27 &&
    AllDigits(s[0..4]) && s[4] == '-' &&
    TwoDigitsIn(s[5..7], 1, 12) && s[7] == '-' &&
    TwoDigitsIn(s[8..10], 1, 31) && (s[10] == 'T' || s[10] == 't') &&
    TwoDigitsIn(s[11..13], 0, 23) && s[13] == ':' &&
    TwoDigitsIn(s[14..16], 0, 59) && s[16] == ':' &&
    TwoDigitsIn(s[17..19], 0, 61) && s[19] == '.' &&
    AllDigits(s[20..|s| - 1]) && (s[|s| - 1] == 'Z' || s[|s| - 1] == 'z')
  }

  /** The fields read from a matching text; `%f` is padded with zeros on the
      right to six digits. */
  function Fields(s: string): (t: DateTime)
    requires MatchesFormat(s)
    ensures 1 <= t.month <= 12 && 0 <= t.microsecond <= 999999
  {
    var frac := s[20..|s| - 1];
    DigitsValueBound(frac);
    DateTime(DigitsValue(s[0..4]), DigitsValue(s[5..7]), DigitsValue(s[8..10]),
             DigitsValue(s[11..13]), DigitsValue(s[14..16]), DigitsValue(s[17..19]),
             DigitsValue(frac) * Pow10(6 - |frac|))
  }

  /** `parse_timestamp(s)`: epoch milliseconds, or the `ValueError` raised. */
  function ParseTimestamp(s: string): Result<int, ParseError> {
    if !MatchesFormat(s) then Err(FormatMismatch)
    else if !ValidDateTime(Fields(s)) then Err(FieldOutOfRange)
    else Ok(EpochMillis(Fields(s)))
  }

  // ---------------------------------------------------------------------
  // The inverse conversion: epoch milliseconds to a date-time

  /** Hours, minutes, seconds and microseconds of the `x`-th millisecond of a day. */
  function ClockOf(x: int): (c: (int, int, int, int))
    requires 0 <= x < MillisPerDay
    ensures 0 <= c.0 <= 23 && 0 <= c.1 <= 59 && 0 <= c.2 <= 59
    ensures 0 <= c.3 <= 999000 && c.3 % 1000 == 0
    ensures x == c.0 * 3600000 + c.1 * 60000 + c.2 * 1000 + c.3 / 1000
  {
    var inHour := x % 3600000;
    var inMinute := inHour % 60000;
    (x / 3600000, inHour / 60000, inMinute / 1000, inMinute % 1000 * 1000)
  }

  /** `datetime.fromtimestamp(ms / 1000, tz=timezone.utc)`, computed exactly,
      before any check of the year's range. The source divides in double
      precision, which is exact to the microsecond only within about 2^33
      seconds of the epoch (the years 1698 to 2242); beyond that the
      rounded quotient can land on a neighbouring millisecond. */
  function FromMillis(ms: int): (t: DateTime)
    ensures ValidDate(t.year, t.month, t.day)
    ensures 0 <= t.hour <= 23 && 0 <= t.minute <= 59 && 0 <= t.second <= 59
    ensures 0 <= t.microsecond <= 999000 && t.microsecond % 1000 == 0
  {
    var (y, m, d) := CivilFromDays(ms / MillisPerDay + EpochDay);
    var (hh, mm, ss, us) := ClockOf(ms % MillisPerDay);
    DateTime(y, m, d, hh, mm, ss, us)
  }

  /** The instant `ms` lies in the years `datetime` can represent. */
  predicate Representable(ms: int) {
    1 <= FromMillis(ms).year <= 9999
  }

  // ---------------------------------------------------------------------
  // Lemmas

  /** The epoch is 1970-01-01. */
  lemma EpochIs1970()
    ensures DayNumber(1970, 1, 1) == EpochDay
    ensures EpochMillis(DateTime(1970, 1, 1, 0, 0, 0, 0)) == 0
  {
  }

  /** Sub-millisecond digits are dropped: the result is the whole number of
      milliseconds, truncated toward the epoch. */
  lemma ParseTimestampValue(s: string)
    requires ParseTimestamp(s).Ok?
    ensures var t := Fields(s);
      var secs := (DayNumber(t.year, t.month, t.day) - EpochDay) * 86400 + t.hour * 3600 + t.minute * 60 + t.second;
      ValidDateTime(t) &&
      (secs >= 0 ==> ParseTimestamp(s).value == secs * 1000 + t.microsecond / 1000) &&
      (secs < 0 ==> ParseTimestamp(s).value == secs * 1000 + (t.microsecond + 999) / 1000)
  {
    var t := Fields(s);
    var secs := (DayNumber(t.year, t.month, t.day) - EpochDay) * 86400 + t.hour * 3600 + t.minute * 60 + t.second;
    var micros := secs * 1000000 + t.microsecond;
    assert EpochMicros(t) == micros;
    if secs < 0 {
      assert -micros == (-secs - 1) * 1000000 + (1000000 - t.microsecond);
      assert (-micros) / 1000 == (-secs - 1) * 1000 + (1000000 - t.microsecond) / 1000;
      assert (1000000 - t.microsecond) / 1000 == 1000 - (t.microsecond + 999) / 1000;
    }
  }

  /** Instants in calendar order: `a` is strictly earlier than `b`. */
  predicate Earlier(a: DateTime, b: DateTime) {
    a.year < b.year ||
    (a.year == b.year && (a.month < b.month ||
    (a.month == b.month && (a.day < b.day ||
    (a.day == b.day && (a.hour < b.hour ||
    (a.hour == b.hour && (a.minute < b.minute ||
    (a.minute == b.minute && (a.second < b.second ||
    (a.second == b.second && a.microsecond < b.microsecond)))))))))))
  }

  /** A later instant has a strictly larger microsecond count. */
  lemma EpochMicrosStrictlyMonotone(a: DateTime, b: DateTime)
    requires ValidDateTime(a) && ValidDateTime(b) && Earlier(a, b)
    ensures EpochMicros(a) < EpochMicros(b)
  {
    if (a.year, a.month, a.day) != (b.year, b.month, b.day) {
      DayNumberStrictlyMonotone(a.year, a.month, a.day, b.year, b.month, b.day);
    }
  }

  lemma TruncMillisMonotone(a: int, b: int)
    requires a < b
    ensures TruncMillis(a) <= TruncMillis(b)
  {
    if a < 0 && b >= 0 {
      assert TruncMillis(a) <= 0 <= TruncMillis(b);
    } else if a < 0 {
      assert (-b) / 1000 <= (-a) / 1000;
    }
  }

  /** The conversion is monotone: a later instant never yields a smaller
      millisecond value. */
  lemma ParseTimestampMonotone(s1: string, s2: string)
    requires ParseTimestamp(s1).Ok? && ParseTimestamp(s2).Ok?
    requires Earlier(Fields(s1), Fields(s2))
    ensures ParseTimestamp(s1).value <= ParseTimestamp(s2).value
  {
    EpochMicrosStrictlyMonotone(Fields(s1), Fields(s2));
    TruncMillisMonotone(EpochMicros(Fields(s1)), EpochMicros(Fields(s2)));
  }

  /** Splitting milliseconds into whole days and the millisecond of the day. */
  lemma DaySplit(ms: int, days: int, x: int)
    requires 0 <= x < MillisPerDay && ms == days * MillisPerDay + x
    ensures ms / MillisPerDay == days && ms % MillisPerDay == x
  {
  }

  /** Converting epoch milliseconds to a date-time and back is the identity. */
  lemma FromMillisRoundTrip(ms: int)
    ensures EpochMicros(FromMillis(ms)) == ms * 1000
    ensures EpochMillis(FromMillis(ms)) == ms
  {
    var n := ms / MillisPerDay + EpochDay;
    var t := FromMillis(ms);
    assert DayNumber(t.year, t.month, t.day) == n;
    var x := ms % MillisPerDay;
    assert x == t.hour * 3600000 + t.minute * 60000 + t.second * 1000 + t.microsecond / 1000;
    assert ms == (n - EpochDay) * MillisPerDay + x;
    assert EpochMicros(t) == ((n - EpochDay) * MillisPerDay + x) * 1000;
  }

  /** A valid date-time on a whole millisecond is recovered from its
      millisecond value. */
  lemma EpochMillisRoundTrip(t: DateTime)
    requires ValidDateTime(t) && t.microsecond % 1000 == 0
    ensures FromMillis(EpochMillis(t)) == t
  {
    var n := DayNumber(t.year, t.month, t.day);
    var x := t.hour * 3600000 + t.minute * 60000 + t.second * 1000 + t.microsecond / 1000;
    var ms := EpochMillis(t);
    EpochMillisSplit(t);
    DaySplit(ms, n - EpochDay, x);
    DateRoundTrip(t.year, t.month, t.day);
    ClockRoundTrip(t.hour, t.minute, t.second, t.microsecond);
    assert CivilFromDays(ms / MillisPerDay + EpochDay) == (t.year, t.month, t.day);
    assert ClockOf(ms % MillisPerDay) == (t.hour, t.minute, t.second, t.microsecond);
  }

  /** The milliseconds of a date-time on a whole millisecond: whole days
      since the epoch, then the millisecond of the day. */
  lemma EpochMillisSplit(t: DateTime)
    requires ValidDateTime(t) && t.microsecond % 1000 == 0
    ensures var x := t.hour * 3600000 + t.minute * 60000 + t.second * 1000 + t.microsecond / 1000;
      0 <= x < MillisPerDay &&
      EpochMillis(t) == (DayNumber(t.year, t.month, t.day) - EpochDay) * MillisPerDay + x
  {
    var n := DayNumber(t.year, t.month, t.day);
    var x := t.hour * 3600000 + t.minute * 60000 + t.second * 1000 + t.microsecond / 1000;
    var ms := (n - EpochDay) * MillisPerDay + x;
    assert EpochMicros(t) == ms * 1000;
  }

  lemma ClockRoundTrip(hh: int, mm: int, ss: int, us: int)
    requires 0 <= hh <= 23 && 0 <= mm <= 59 && 0 <= ss <= 59 && 0 <= us <= 999999 && us % 1000 == 0
    ensures ClockOf(hh * 3600000 + mm * 60000 + ss * 1000 + us / 1000) == (hh, mm, ss, us)
  {
    var x := hh * 3600000 + mm * 60000 + ss * 1000 + us / 1000;
    assert x / 3600000 == hh && x % 3600000 == mm * 60000 + ss * 1000 + us / 1000;
    var inHour := x % 3600000;
    assert inHour / 60000 == mm && inHour % 60000 == ss * 1000 + us / 1000;
    var inMinute := inHour % 60000;
    assert inMinute / 1000 == ss && inMinute % 1000 == us / 1000;
  }
}
