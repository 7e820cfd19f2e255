/**
 * The review records the server keeps, the sentiment annotation a query
 * attaches to them, and the `datetime` values it compares: calendar dates,
 * second-precision timestamps, their chronological order and the
 * `%Y-%m-%d %H:%M:%S` text layout of a review's `Timestamp` column.
 */
module Reviews {
  import opened Wrappers
  import opened Digits

  datatype Date = Date(year: int, month: int, day: int)

  datatype Timestamp = Timestamp(date: Date, hour: int, minute: int, second: int)

  /** A query date compared against a review is the `datetime` at 00:00:00 of that day. */
  function AtMidnight(d: Date): Timestamp {
    Timestamp(d, 0, 0, 0)
  }

  /** `a < b` on `datetime`: field by field, most significant first. */
  predicate Earlier(a: Timestamp, b: Timestamp) {
    if a.date.year != b.date.year then a.date.year < b.date.year
    else if a.date.month != b.date.month then a.date.month < b.date.month
    else if a.date.day != b.date.day then a.date.day < b.date.day
    else if a.hour != b.hour then a.hour < b.hour
    else if a.minute != b.minute then a.minute < b.minute
    else a.second < b.second
  }

  /** `a <= b` on `datetime`. */
  predicate NotAfter(a: Timestamp, b: Timestamp) {
    !Earlier(b, a)
  }

  lemma NotAfterIsTotalOrder(a: Timestamp, b: Timestamp, c: Timestamp)
    ensures NotAfter(a, a)
    ensures NotAfter(a, b) || NotAfter(b, a)
    ensures NotAfter(a, b) && NotAfter(b, a) ==> a == b
    ensures NotAfter(a, b) && NotAfter(b, c) ==> NotAfter(a, c)
  {
  }

  predicate IsLeapYear(y: int) {
    y % 4 == 0 && (y % 100 != 0 || y % 400 == 0)
  }

  function DaysInMonth(y: int, m: int): int
    requires 1 <= m <= 12
  {
    if m == 2 then (if IsLeapYear(y) then 29 else 28)
    else if m == 4 || m == 6 || m == 9 || m == 11 then 30
    else 31
  }

  /** The values a `datetime` can hold at second precision. */
  predicate ValidTimestamp(t: Timestamp) {
    && 1 <= t.date.year <= 9999
    && 1 <= t.date.month <= 12
    && 1 <= t.date.day <= DaysInMonth(t.date.year, t.date.month)
    && 0 <= t.hour < 24
    && 0 <= t.minute < 60
    && 0 <= t.second < 60
  }

  /** `str(dt)` of a `datetime` whose microseconds are zero: `YYYY-MM-DD HH:MM:SS`. */
  function FormatTimestamp(t: Timestamp): (s: string)
    requires ValidTimestamp(t)
  {
    Padded(t.date.year, 4) + "-" + Padded(t.date.month, 2) + "-" + Padded(t.date.day, 2) + " "
    + Padded(t.hour, 2) + ":" + Padded(t.minute, 2) + ":" + Padded(t.second, 2)
  }

  /** The nineteen-character layout `%Y-%m-%d %H:%M:%S`: separators in place, digits elsewhere. */
  predicate HasTimestampLayout(s: string) {
    && |s| == 19
    && s[4] == '-' && s[7] == '-' && s[10] == ' ' && s[13] == ':' && s[16] == ':'
    && AllDigits(s[0..4]) && AllDigits(s[5..7]) && AllDigits(s[8..10])
    && AllDigits(s[11..13]) && AllDigits(s[14..16]) && AllDigits(s[17..19])
  }

  /**
   * Reads a review's `Timestamp` column in the fixed-width, zero-padded
   * spelling of `%Y-%m-%d %H:%M:%S`; `None` for any other string.
   */
  function ParseTimestamp(s: string): (r: Option<Timestamp>)
    ensures r.Some? ==> ValidTimestamp(r.value)
  {
    if !HasTimestampLayout(s) then None
    else
      var t := Timestamp(Date(Value(s[0..4]), Value(s[5..7]), Value(s[8..10])),
                         Value(s[11..13]), Value(s[14..16]), Value(s[17..19]));
      if ValidTimestamp(t) then Some(t) else None
  }

  lemma FormatTimestampLayout(t: Timestamp)
    requires ValidTimestamp(t)
    ensures HasTimestampLayout(FormatTimestamp(t))
    ensures FormatTimestamp(t)[0..4] == Padded(t.date.year, 4)
    ensures FormatTimestamp(t)[5..7] == Padded(t.date.month, 2)
    ensures FormatTimestamp(t)[8..10] == Padded(t.date.day, 2)
    ensures FormatTimestamp(t)[11..13] == Padded(t.hour, 2)
    ensures FormatTimestamp(t)[14..16] == Padded(t.minute, 2)
    ensures FormatTimestamp(t)[17..19] == Padded(t.second, 2)
  {
    // Locating each field in the concatenation one at a time keeps the proof stable across solver seeds.
    var s := FormatTimestamp(t);
    assert s[0..4] == Padded(t.date.year, 4);
    assert s[5..7] == Padded(t.date.month, 2);
    assert s[8..10] == Padded(t.date.day, 2);
    assert s[11..13] == Padded(t.hour, 2);
    assert s[14..16] == Padded(t.minute, 2);
    assert s[17..19] == Padded(t.second, 2);
  }

  /** Every timestamp the server writes reads back as the same timestamp. */
  lemma FormatThenParse(t: Timestamp)
    requires ValidTimestamp(t)
    ensures ParseTimestamp(FormatTimestamp(t)) == Some(t)
  {
    FormatTimestampLayout(t);
  }

  /**
   * In this fixed-width reading, a string that reads as a timestamp is
   * exactly the text written for that timestamp.
   */
  lemma ParseThenFormat(s: string, t: Timestamp)
    requires ParseTimestamp(s) == Some(t)
    ensures FormatTimestamp(t) == s
  {
    PaddedValue(s[0..4]);
    PaddedValue(s[5..7]);
    PaddedValue(s[8..10]);
    PaddedValue(s[11..13]);
    PaddedValue(s[14..16]);
    PaddedValue(s[17..19]);
    FormatTimestampLayout(t);
    var f := FormatTimestamp(t);
    assert f[0..4] == s[0..4] && f[5..7] == s[5..7] && f[8..10] == s[8..10];
    assert f[11..13] == s[11..13] && f[14..16] == s[14..16] && f[17..19] == s[17..19];
    forall i | 0 <= i < 19
      ensures f[i] == s[i]
    {
      if i < 4 {
        assert f[i] == f[0..4][i] && s[i] == s[0..4][i];
      } else if 4 < i < 7 {
        assert f[i] == f[5..7][i - 5] && s[i] == s[5..7][i - 5];
      } else if 7 < i < 10 {
        assert f[i] == f[8..10][i - 8] && s[i] == s[8..10][i - 8];
      } else if 10 < i < 13 {
        assert f[i] == f[11..13][i - 11] && s[i] == s[11..13][i - 11];
      } else if 13 < i < 16 {
        assert f[i] == f[14..16][i - 14] && s[i] == s[14..16][i - 14];
      } else if 16 < i {
        assert f[i] == f[17..19][i - 17] && s[i] == s[17..19][i - 17];
      }
    }
  }

  /**
   * The sentiment scores the analyzer returns for a text. The analyzer
   * rounds each score to at most four decimals, so each is held exactly as an
   * integer number of ten-thousandths; `compound` lies in -10000..10000.
   */
  datatype Sentiment = Sentiment(neg: int, neu: int, pos: int, compound: int)

  /**
   * One stored review (a row of the review table): its `ReviewBody`,
   * `Location` and parsed `Timestamp` columns, every other column as text,
   * and the `sentiment` entry a query may have written into it.
   */
  datatype Review = Review(
    body: string,
    location: string,
    timestamp: Timestamp,
    otherColumns: map<string, string>,
    sentiment: Option<Sentiment>)

  /** The ranking key `review['sentiment']['compound']` (0 for a review never annotated). */
  function Compound(r: Review): int {
    if r.sentiment.Some? then r.sentiment.value.compound else 0
  }
}
