/**
 * The local wall clock as the scheduler uses it: millisecond timestamps,
 * start of day, and times of day written as 24-hour `HH:mm` strings.
 * Timestamps count milliseconds on one local clock without time zones or
 * daylight-saving shifts.
 */
module Clock {
  import opened Types

  const MINUTE_MS: int := 60_000
  const HOUR_MS: int := 3_600_000
  const DAY_MS: int := 86_400_000
  const MINUTES_PER_DAY: int := 1440

  /** `moment(t).startOf('day')`: the midnight at or before `t`. */
  function StartOfDay(t: int): (d: int)
    ensures d % DAY_MS == 0
    ensures d <= t < d + DAY_MS
  {
    t - t % DAY_MS
  }

  /** The minute of the day at `t`, as `moment(t).format('HH:mm')` shows it. */
  function MinuteOfDay(t: int): (m: nat)
    ensures m < MINUTES_PER_DAY
    ensures StartOfDay(t) + m * MINUTE_MS <= t < StartOfDay(t) + (m + 1) * MINUTE_MS
  {
    (t % DAY_MS) / MINUTE_MS
  }

  /** Minute `m` of the day that starts at midnight `date` lies on that day and shows `m`. */
  lemma MinuteOnDay(date: int, m: nat)
    requires date % DAY_MS == 0 && m < MINUTES_PER_DAY
    ensures StartOfDay(date + m * MINUTE_MS) == date
    ensures MinuteOfDay(date + m * MINUTE_MS) == m
    ensures (date + m * MINUTE_MS) % MINUTE_MS == 0
  {
    var q := date / DAY_MS;
    var t := date + m * MINUTE_MS;
    assert t == q * DAY_MS + m * MINUTE_MS;
    assert t % DAY_MS == m * MINUTE_MS;
    assert t == (q * MINUTES_PER_DAY + m) * MINUTE_MS;
  }

  predicate IsDigit(c: char) {
    '0' <= c <= '9'
  }

  function DigitValue(c: char): (d: nat)
    requires IsDigit(c)
    ensures d < 10
  {
    c as int - '0' as int
  }

  function DigitChar(d: nat): (c: char)
    requires d < 10
    ensures IsDigit(c) && DigitValue(c) == d
  {
    ('0' as int + d) as char
  }

  /**
   * Reads a strict `HH:mm` string as a minute of the day; None for anything
   * else (where moment would yield an invalid date).
   */
  function ParseHHmm(s: string): (r: Option<nat>)
    ensures r.Some? ==> r.value < MINUTES_PER_DAY
    ensures r.Some? ==> |s| == 5 && s[2] == ':'
  {
    if |s| == 5 && IsDigit(s[0]) && IsDigit(s[1]) && s[2] == ':' && IsDigit(s[3]) && IsDigit(s[4]) then
      var h := DigitValue(s[0]) * 10 + DigitValue(s[1]);
      var m := DigitValue(s[3]) * 10 + DigitValue(s[4]);
      if h < 24 && m < 60 then Some(h * 60 + m) else None
    else None
  }

  /** Writes a minute of the day as a zero-padded `HH:mm` string. */
  function FormatHHmm(m: nat): (s: string)
    requires m < MINUTES_PER_DAY
    ensures |s| == 5 && s[2] == ':'
  {
    var h := m / 60;
    var mm := m % 60;
    [DigitChar(h / 10), DigitChar(h % 10), ':', DigitChar(mm / 10), DigitChar(mm % 10)]
  }

  /** Formatting a minute of the day and reading it back gives the same minute. */
  lemma ParseFormat(m: nat)
    requires m < MINUTES_PER_DAY
    ensures ParseHHmm(FormatHHmm(m)) == Some(m)
  {
    var s := FormatHHmm(m);
    var h, mm := m / 60, m % 60;
    assert DigitValue(s[0]) * 10 + DigitValue(s[1]) == h;
    assert DigitValue(s[3]) * 10 + DigitValue(s[4]) == mm;
  }

  /** Every string the parser accepts is the formatting of what it reads. */
  lemma FormatParse(s: string)
    requires ParseHHmm(s).Some?
    ensures FormatHHmm(ParseHHmm(s).value) == s
  {
    var h := DigitValue(s[0]) * 10 + DigitValue(s[1]);
    var m := DigitValue(s[3]) * 10 + DigitValue(s[4]);
    var t := FormatHHmm(h * 60 + m);
    assert (h * 60 + m) / 60 == h && (h * 60 + m) % 60 == m;
    assert h / 10 == DigitValue(s[0]) && h % 10 == DigitValue(s[1]);
    assert m / 10 == DigitValue(s[3]) && m % 10 == DigitValue(s[4]);
    assert t[0] == s[0] && t[1] == s[1] && t[3] == s[3] && t[4] == s[4];
  }

  /**
   * `moment(s, 'HH:mm').add(k, 'hour').format('HH:mm')`: the time of day k
   * hours later on the 24-hour clock, or moment's "Invalid date" when `s`
   * is not a time.
   */
  function AddHoursHHmm(s: string, k: nat): (r: string)
    ensures ParseHHmm(s).Some? ==>
      ParseHHmm(r) == Some((ParseHHmm(s).value + 60 * k) % MINUTES_PER_DAY)
    ensures ParseHHmm(s).None? ==> r == "Invalid date"
  {
    match ParseHHmm(s)
    case Some(m) =>
      var e := (m + 60 * k) % MINUTES_PER_DAY;
      ParseFormat(e);
      FormatHHmm(e)
    case None => "Invalid date"
  }
}
