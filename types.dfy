/** `BaseDataclass.validate_timestamps` and the `LogStream` / `LogEvent`
    dataclasses of src/collector/types.py.

    A timestamp field passes when it is an `int` (a `bool` is one) whose
    instant `datetime` can represent and whose rendering
    `strftime('%Y-%m-%dT%H:%M:%S.%f')[:-3] + 'Z'` matches
    `^\d{4}-\d{2}-\d{2}T\d{2}:\d{2}:\d{2}\.\d{3}Z$`. `%Y` is written as the C
    library on Linux writes it, without zero padding, as CPython releases
    before 3.13 leave it, so instants before the year 1000 fail the pattern. */
module CollectorTypes {
  import opened Common
  import opened Calendar
  import opened Timestamps
  import opened CloudWatchErrors

  const NotAnIntegerMessage := "Timestamp must be an integer (milliseconds since epoch)."
  const BadFormatPrefix := "Invalid ISO 8601 format with milliseconds: "
  const ConversionPrefix := "Failed to convert timestamp to ISO 8601: "

  /** What `strftime('%Y-%m-%dT%H:%M:%S.')` writes: everything before the fraction. */
  function DateClockText(t: DateTime): string
    requires t.year >= 1 && 0 <= t.month < 100 && 0 <= t.day < 100
    requires 0 <= t.hour < 100 && 0 <= t.minute < 100 && 0 <= t.second < 100
  {
    NatToString(t.year) + "-" + Pad(t.month, 2) + "-" + Pad(t.day, 2) + "T" +
    Pad(t.hour, 2) + ":" + Pad(t.minute, 2) + ":" + Pad(t.second, 2) + "."
  }

  /** `dt.strftime('%Y-%m-%dT%H:%M:%S.%f')` */
  function Strftime(t: DateTime): string
    requires t.year >= 1 && 0 <= t.month < 100 && 0 <= t.day < 100
    requires 0 <= t.hour < 100 && 0 <= t.minute < 100 && 0 <= t.second < 100
    requires 0 <= t.microsecond <= 999999
  {
    DateClockText(t) + Pad(t.microsecond, 6)
  }

  /** The text `validate_timestamps` builds for epoch milliseconds `ms`:
      the six microsecond digits cut to three by `[:-3]`, then `Z`. */
  function IsoMillis(ms: int): (s: string)
    requires Representable(ms)
    ensures s == IsoText(FromMillis(ms))
  {
    var t := FromMillis(ms);
    var s := Strftime(t);
    PadMillis(t.microsecond / 1000);
    assert s == (DateClockText(t) + Pad(t.microsecond / 1000, 3)) + "000";
    s[..|s| - 3] + "Z"
  }

  /** Fields small enough for their `strftime` widths. */
  predicate Printable(t: DateTime) {
    1 <= t.year <= 9999 && 0 <= t.month < 100 && 0 <= t.day < 100 &&
    0 <= t.hour < 100 && 0 <= t.minute < 100 && 0 <= t.second < 100 && 0 <= t.microsecond <= 999999
  }

  /** A date-time with its microseconds cut to milliseconds, as
      `strftime(...)[:-3] + 'Z'` writes it. */
  function IsoText(t: DateTime): string
    requires Printable(t)
  {
    DateClockText(t) + Pad(t.microsecond / 1000, 3) + "Z"
  }

  lemma PadMillis(x: nat)
    requires x < 1000
    ensures Pad(x * 1000, 6) == Pad(x, 3) + "000"
  {
    PadTimesTen(x, 3);
    PadTimesTen(x * 10, 4);
    PadTimesTen(x * 100, 5);
    assert x * 100 * 10 == x * 1000 && x * 10 * 10 == x * 100;
  }

  /** A trailing zero digit. */
  lemma PadTimesTen(y: nat, width: nat)
    requires y < Pow10(width)
    ensures y * 10 < Pow10(width + 1)
    ensures Pad(y * 10, width + 1) == Pad(y, width) + "0"
  {
    assert (y * 10) / 10 == y && (y * 10) % 10 == 0;
    assert DigitChar(0) == '0';
  }

  /** `re.match(r'^\d{4}-\d{2}-\d{2}T\d{2}:\d{2}:\d{2}\.\d{3}Z$', s)` for a text
      without line breaks. */
  predicate MatchesIsoMillisPattern(s: string) {
    |s| == 24 &&
    AllDigits(s[0..4]) && s[4] == '-' && AllDigits(s[5..7]) && s[7] == '-' &&
    AllDigits(s[8..10]) && s[10] == 'T' && AllDigits(s[11..13]) && s[13] == ':' &&
    AllDigits(s[14..16]) && s[16] == ':' && AllDigits(s[17..19]) && s[19] == '.' &&
    AllDigits(s[20..23]) && s[23] == 'Z'
  }

  /** CPython's text for a year `datetime` cannot hold. */
  function YearOutOfRangeText(year: int): string {
    "year " + IntToString(year) + " is out of range"
  }

  /** The check of one field's value: `None` when it passes, otherwise the
      `CloudWatchTimestampError` raised, carrying the value. */
  function ValidateTimestamp(v: PyValue): Option<CloudWatchError> {
    if !IsPyInt(v) then Some(TimestampError(v, NotAnIntegerMessage))
    else
      var ms := PyIntValue(v);
      if !Representable(ms) then
        Some(TimestampError(v, ConversionPrefix + YearOutOfRangeText(FromMillis(ms).year)))
      else if !MatchesIsoMillisPattern(IsoMillis(ms)) then
        Some(TimestampError(v, BadFormatPrefix + IsoMillis(ms)))
      else None
  }

  /** The checks of the named fields, in order. */
  function Checks(attrs: map<string, PyValue>, fields: seq<string>): (c: seq<Option<CloudWatchError>>)
    requires forall i :: 0 <= i < |fields| ==> fields[i] in attrs
    ensures |c| == |fields|
  {
    if fields == [] then [] else [ValidateTimestamp(attrs[fields[0]])] + Checks(attrs, fields[1..])
  }

  lemma {:induction false} ChecksAt(attrs: map<string, PyValue>, fields: seq<string>, i: int)
    requires forall j :: 0 <= j < |fields| ==> fields[j] in attrs
    requires 0 <= i < |fields|
    ensures Checks(attrs, fields)[i] == ValidateTimestamp(attrs[fields[i]])
  {
    if i > 0 {
      ChecksAt(attrs, fields[1..], i - 1);
    }
  }

  /** The first failure of a sequence of checks, if any. */
  function FirstFailure<E>(checks: seq<Option<E>>): (r: Option<E>)
    ensures r.None? <==> forall i :: 0 <= i < |checks| ==> checks[i].None?
    ensures r.Some? ==> exists k :: 0 <= k < |checks| && r == checks[k] &&
                                    forall i :: 0 <= i < k ==> checks[i].None?
  {
    if checks == [] then None
    else if checks[0].Some? then checks[0]
    else
      var rest := FirstFailure(checks[1..]);
      assert rest.Some? ==> exists k :: 0 <= k < |checks| && rest == checks[k] &&
                                        forall i :: 0 <= i < k ==> checks[i].None? by {
        if rest.Some? {
          var k :| 0 <= k < |checks[1..]| && rest == checks[1..][k] &&
                   forall i :: 0 <= i < k ==> checks[1..][i].None?;
          assert rest == checks[k + 1];
        }
      }
      rest
  }

  /** `validate_timestamps(*fields)` on an object whose attributes are
      `attrs`: the fields are checked in order and the first failure is
      raised (`None`: nothing raised). */
  function ValidateTimestamps(attrs: map<string, PyValue>, fields: seq<string>): Option<CloudWatchError>
    requires forall i :: 0 <= i < |fields| ==> fields[i] in attrs
  {
    FirstFailure(Checks(attrs, fields))
  }

  /** Validation passes exactly when every named field passes; otherwise it
      raises the error of the first field that fails. */
  lemma ValidateTimestampsFirstFailure(attrs: map<string, PyValue>, fields: seq<string>)
    requires forall i :: 0 <= i < |fields| ==> fields[i] in attrs
    ensures ValidateTimestamps(attrs, fields).None? <==>
            forall i :: 0 <= i < |fields| ==> ValidateTimestamp(attrs[fields[i]]).None?
    ensures ValidateTimestamps(attrs, fields).Some? ==>
            exists k :: 0 <= k < |fields| && ValidateTimestamps(attrs, fields) == ValidateTimestamp(attrs[fields[k]]) &&
                        forall i :: 0 <= i < k ==> ValidateTimestamp(attrs[fields[i]]).None?
  {
    forall i | 0 <= i < |fields| {
      ChecksAt(attrs, fields, i);
    }
  }

  // ---------------------------------------------------------------------
  // The dataclasses

  datatype LogStream = LogStream(logStreamName: string, lastEventTime: PyValue)

  datatype LogEvent = LogEvent(timestamp: PyValue, message: string, eventId: string)

  function StreamAttributes(s: LogStream): map<string, PyValue> {
    map["logStreamName" := PyStr(s.logStreamName), "lastEventTime" := s.lastEventTime]
  }

  function EventAttributes(e: LogEvent): map<string, PyValue> {
    map["timestamp" := e.timestamp, "message" := PyStr(e.message), "eventId" := PyStr(e.eventId)]
  }

  /** `LogStream(name, lastEventTime)`: the object, unchanged, or the error its
      `__post_init__` raises. Only `lastEventTime` is validated. */
  function NewLogStream(name: string, lastEventTime: PyValue): (r: Result<LogStream, CloudWatchError>)
    ensures r.Ok? <==> ValidateTimestamp(lastEventTime).None?
    ensures r.Ok? ==> r.value.logStreamName == name && r.value.lastEventTime == lastEventTime
    ensures r.Err? ==> Some(r.error) == ValidateTimestamp(lastEventTime)
  {
    var s := LogStream(name, lastEventTime);
    ValidateTimestampsFirstFailure(StreamAttributes(s), ["lastEventTime"]);
    match ValidateTimestamps(StreamAttributes(s), ["lastEventTime"])
    case None => Ok(s)
    case Some(e) => Err(e)
  }

  /** `LogEvent(timestamp, message, eventId)`: only `timestamp` is validated. */
  function NewLogEvent(timestamp: PyValue, message: string, eventId: string): (r: Result<LogEvent, CloudWatchError>)
    ensures r.Ok? <==> ValidateTimestamp(timestamp).None?
    ensures r.Ok? ==> r.value == LogEvent(timestamp, message, eventId)
    ensures r.Err? ==> Some(r.error) == ValidateTimestamp(timestamp)
  {
    var e := LogEvent(timestamp, message, eventId);
    ValidateTimestampsFirstFailure(EventAttributes(e), ["timestamp"]);
    match ValidateTimestamps(EventAttributes(e), ["timestamp"])
    case None => Ok(e)
    case Some(err) => Err(err)
  }

  // ---------------------------------------------------------------------
  // The rendered text and the parser

  /** Where each piece sits in a text laid out as the pattern expects. */
  lemma PiecesLayout(y: string, mo: string, d: string, h: string, mi: string, se: string, f: string)
    requires |y| == 4 && |mo| == 2 && |d| == 2 && |h| == 2 && |mi| == 2 && |se| == 2 && |f| == 3
    ensures var s := y + "-" + mo + "-" + d + "T" + h + ":" + mi + ":" + se + "." + f + "Z";
      |s| == 24 && s[0..4] == y && s[4] == '-' && s[5..7] == mo && s[7] == '-' &&
      s[8..10] == d && s[10] == 'T' && s[11..13] == h && s[13] == ':' &&
      s[14..16] == mi && s[16] == ':' && s[17..19] == se && s[19] == '.' &&
      s[20..23] == f && s[23] == 'Z'
  {
  }

  /** Where each field sits in the text of a date-time with a four-digit year. */
  lemma IsoTextLayout(t: DateTime)
    requires Printable(t) && t.year >= 1000
    ensures var s := IsoText(t);
      |s| == 24 && s[0..4] == Pad(t.year, 4) && s[4] == '-' && s[5..7] == Pad(t.month, 2) && s[7] == '-' &&
      s[8..10] == Pad(t.day, 2) && s[10] == 'T' && s[11..13] == Pad(t.hour, 2) && s[13] == ':' &&
      s[14..16] == Pad(t.minute, 2) && s[16] == ':' && s[17..19] == Pad(t.second, 2) && s[19] == '.' &&
      s[20..23] == Pad(t.microsecond / 1000, 3) && s[23] == 'Z'
  {
    NatToStringRoundTrip(t.year);
    assert NatToString(t.year) == Pad(t.year, 4);
    PiecesLayout(Pad(t.year, 4), Pad(t.month, 2), Pad(t.day, 2), Pad(t.hour, 2), Pad(t.minute, 2),
                 Pad(t.second, 2), Pad(t.microsecond / 1000, 3));
  }

  /** The text matches the pattern exactly when the year has four digits;
      an earlier year is written shorter. */
  lemma IsoTextMatches(t: DateTime)
    requires Printable(t)
    ensures MatchesIsoMillisPattern(IsoText(t)) <==> t.year >= 1000
  {
    NatToStringRoundTrip(t.year);
    if t.year >= 1000 {
      IsoTextLayout(t);
    } else {
      assert |IsoText(t)| == |NatToString(t.year)| + 20;
    }
  }

  /** The text of a valid date-time with whole milliseconds and a four-digit
      year has the layout `parse_timestamp` reads, and reads back as the
      same date-time. */
  lemma IsoTextFields(t: DateTime)
    requires ValidDateTime(t) && t.year >= 1000 && t.microsecond % 1000 == 0
    ensures MatchesFormat(IsoText(t)) && Fields(IsoText(t)) == t
  {
    IsoTextLayout(t);
    LaidOutFields(IsoText(t), t);
  }

  /** A two-digit field written by `Pad` reads back within its range. */
  lemma PaddedTwoDigits(x: nat, lo: int, hi: int)
    requires lo <= x <= hi && x < 100
    ensures TwoDigitsIn(Pad(x, 2), lo, hi) && DigitsValue(Pad(x, 2)) == x
  {
    PadRoundTrip(x, 2);
  }

  /** `IsoTextFields` for any text with `t`'s fields in their places. */
  lemma LaidOutFields(s: string, t: DateTime)
    requires ValidDateTime(t) && t.year >= 1000 && t.microsecond % 1000 == 0
    requires |s| == 24 && s[0..4] == Pad(t.year, 4) && s[4] == '-' && s[5..7] == Pad(t.month, 2) && s[7] == '-' &&
      s[8..10] == Pad(t.day, 2) && s[10] == 'T' && s[11..13] == Pad(t.hour, 2) && s[13] == ':' &&
      s[14..16] == Pad(t.minute, 2) && s[16] == ':' && s[17..19] == Pad(t.second, 2) && s[19] == '.' &&
      s[20..23] == Pad(t.microsecond / 1000, 3) && s[23] == 'Z'
    ensures MatchesFormat(s) && Fields(s) == t
  {
    LaidOutMatches(s, t);
    var frac := s[20..|s| - 1];
    assert frac == s[20..23];
    PadRoundTrip(t.year, 4);
    PadRoundTrip(t.microsecond / 1000, 3);
    assert Pow10(6 - |frac|) == 1000;
    assert DigitsValue(frac) * 1000 == t.microsecond;
    var f := Fields(s);
    assert f.year == t.year && f.month == t.month && f.day == t.day;
    assert f.hour == t.hour && f.minute == t.minute && f.second == t.second;
    assert f.microsecond == t.microsecond;
  }

  /** A text with `t`'s fields in their places has the layout `strptime`
      reads, and its two-digit fields read back as `t`'s. */
  lemma LaidOutMatches(s: string, t: DateTime)
    requires ValidDateTime(t) && t.year >= 1000 && t.microsecond % 1000 == 0
    requires |s| == 24 && s[0..4] == Pad(t.year, 4) && s[4] == '-' && s[5..7] == Pad(t.month, 2) && s[7] == '-' &&
      s[8..10] == Pad(t.day, 2) && s[10] == 'T' && s[11..13] == Pad(t.hour, 2) && s[13] == ':' &&
      s[14..16] == Pad(t.minute, 2) && s[16] == ':' && s[17..19] == Pad(t.second, 2) && s[19] == '.' &&
      s[20..23] == Pad(t.microsecond / 1000, 3) && s[23] == 'Z'
    ensures MatchesFormat(s)
    ensures DigitsValue(s[5..7]) == t.month && DigitsValue(s[8..10]) == t.day && DigitsValue(s[11..13]) == t.hour
    ensures DigitsValue(s[14..16]) == t.minute && DigitsValue(s[17..19]) == t.second
  {
    PaddedTwoDigits(t.month, 1, 12);
    PaddedTwoDigits(t.day, 1, 31);
    PaddedTwoDigits(t.hour, 0, 23);
    PaddedTwoDigits(t.minute, 0, 59);
    PaddedTwoDigits(t.second, 0, 61);
    assert s[20..|s| - 1] == s[20..23];
  }

  /** A text of the pattern's shape is its pieces joined by the separators. */
  lemma PatternPieces(s: string)
    requires MatchesIsoMillisPattern(s)
    ensures s == s[0..4] + "-" + s[5..7] + "-" + s[8..10] + "T" + s[11..13] + ":" + s[14..16] + ":" +
                 s[17..19] + "." + s[20..23] + "Z"
  {
    PiecesLayout(s[0..4], s[5..7], s[8..10], s[11..13], s[14..16], s[17..19], s[20..23]);
  }

  /** A text of the pattern's shape that `strptime` reads as a valid
      date-time with a four-digit year is that date-time's text. */
  lemma FieldsIsoText(s: string)
    requires MatchesIsoMillisPattern(s) && MatchesFormat(s)
    requires ValidDateTime(Fields(s)) && Fields(s).year >= 1000
    ensures Fields(s).microsecond % 1000 == 0 && IsoText(Fields(s)) == s
  {
    var t := Fields(s);
    FieldsPadBack(s);
    IsoTextLayout(t);
    PatternPieces(s);
    PatternPieces(IsoText(t));
  }

  /** Each field read from a text of the pattern's shape, written back with
      its width, is the piece it was read from. */
  lemma FieldsPadBack(s: string)
    requires MatchesIsoMillisPattern(s) && MatchesFormat(s)
    ensures var t := Fields(s);
      t.microsecond % 1000 == 0 && t.year < 10000 &&
      Pad(t.year, 4) == s[0..4] && Pad(t.month, 2) == s[5..7] && Pad(t.day, 2) == s[8..10] &&
      Pad(t.hour, 2) == s[11..13] && Pad(t.minute, 2) == s[14..16] && Pad(t.second, 2) == s[17..19] &&
      Pad(t.microsecond / 1000, 3) == s[20..23]
  {
    var t := Fields(s);
    assert t.year == DigitsValue(s[0..4]) && t.month == DigitsValue(s[5..7]) && t.day == DigitsValue(s[8..10]);
    assert t.hour == DigitsValue(s[11..13]) && t.minute == DigitsValue(s[14..16]);
    assert t.second == DigitsValue(s[17..19]);
    FractionPadBack(s);
    DigitsPadRoundTrip(s[0..4]);
    DigitsPadRoundTrip(s[5..7]);
    DigitsPadRoundTrip(s[8..10]);
    DigitsPadRoundTrip(s[11..13]);
    DigitsPadRoundTrip(s[14..16]);
    DigitsPadRoundTrip(s[17..19]);
  }

  /** The three-digit fraction of a text of the pattern's shape is read as
      whole milliseconds and written back as itself. */
  lemma FractionPadBack(s: string)
    requires MatchesIsoMillisPattern(s) && MatchesFormat(s)
    ensures Fields(s).microsecond % 1000 == 0 && Pad(Fields(s).microsecond / 1000, 3) == s[20..23]
  {
    var t := Fields(s);
    assert s[20..|s| - 1] == s[20..23];
    assert Pow10(6 - 3) == 1000;
    assert t.microsecond == DigitsValue(s[20..23]) * 1000;
    DigitsPadRoundTrip(s[20..23]);
  }

  /** A timestamp passes validation exactly when it is an `int` (or a `bool`)
      whose instant falls in the years 1000 to 9999: earlier years are
      written with fewer than four digits and fail the pattern. */
  lemma ValidateTimestampPasses(v: PyValue)
    ensures ValidateTimestamp(v).None? <==>
            IsPyInt(v) && 1000 <= FromMillis(PyIntValue(v)).year <= 9999
  {
    if IsPyInt(v) && Representable(PyIntValue(v)) {
      IsoTextMatches(FromMillis(PyIntValue(v)));
    }
  }

  /** Round trip: every timestamp that passes validation, once rendered,
      is parsed by `parse_timestamp` back to the same milliseconds. */
  lemma IsoMillisRoundTrip(v: PyValue)
    requires IsPyInt(v) && ValidateTimestamp(v).None?
    ensures ParseTimestamp(IsoMillis(PyIntValue(v))) == Ok(PyIntValue(v))
  {
    var ms := PyIntValue(v);
    ValidateTimestampPasses(v);
    IsoTextFields(FromMillis(ms));
    FromMillisRoundTrip(ms);
  }

  /** The other direction: a text of the validated shape that
      `parse_timestamp` accepts, with a year from 1000 on (a year written
      with a leading zero is rendered back without it), is exactly the
      rendering of the milliseconds it parses to. */
  lemma ParsedTextIsRendering(s: string)
    requires MatchesIsoMillisPattern(s) && ParseTimestamp(s).Ok? && Fields(s).year >= 1000
    ensures Representable(ParseTimestamp(s).value)
    ensures IsoMillis(ParseTimestamp(s).value) == s
  {
    FieldsIsoText(s);
    EpochMillisRoundTrip(Fields(s));
  }
}
