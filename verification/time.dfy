/**
 * Duration formatting (`packages/discord-bot/src/utils/time.ts`).
 *
 * `secondsToHHMMSS` parses its text in base 10, sets a Moment to hour 0,
 * minute 0 and second `val` (the seconds overflow into minutes, hours and
 * days, so only the time of day `val mod 86400` is shown) and formats it as
 * `HH:mm:ss` when `val >= 3600`, else as `mm:ss`. Moment's setter skips a
 * `NaN` value, so for text that does not parse the second keeps the wall
 * clock's second and the result is `00:` followed by it. The clock
 * arithmetic here is shared with the two other copies of the function.
 */
module Time {
  import opened Wrappers
  import opened Text

  const Hour: int := 3600
  const Day: int := 86400

  /** The second of the wall clock when the Moment is created, which a skipped set leaves in place. */
  type ClockSecond = s: nat | s < 60

  /** Two zero-padded decimal digits. */
  function Pad2(n: nat): (r: string)
    requires n < 100
    ensures |r| == 2 && IsDigit(r[0]) && IsDigit(r[1])
    ensures DigitValue(r[0]) * 10 + DigitValue(r[1]) == n
  {
    [DigitChar(n / 10), DigitChar(n % 10)]
  }

  /** What the clock shows after setting the seconds to `val`: the time of day, wrapped. */
  function TimeOfDay(val: int): (t: nat)
    ensures t < Day
    ensures 0 <= val < Day ==> t == val
  {
    val % Day
  }

  datatype Clock = Clock(hours: nat, minutes: nat, seconds: nat)

  /** The hour, minute and second fields of a time of day. */
  function ClockOf(t: nat): (c: Clock)
    requires t < Day
    ensures c.hours < 24 && c.minutes < 60 && c.seconds < 60
    ensures c.hours * 3600 + c.minutes * 60 + c.seconds == t
  {
    Clock(t / 3600, t % 3600 / 60, t % 60)
  }

  /** `format('HH:mm:ss')`. */
  function LongFormat(c: Clock): string
    requires c.hours < 24 && c.minutes < 60 && c.seconds < 60
  {
    Pad2(c.hours) + ":" + Pad2(c.minutes) + ":" + Pad2(c.seconds)
  }

  /** `format('mm:ss')`. */
  function ShortFormat(c: Clock): string
    requires c.minutes < 60 && c.seconds < 60
  {
    Pad2(c.minutes) + ":" + Pad2(c.seconds)
  }

  /** The value of a two-digit field of the text, starting at `i`. */
  function FieldValue(s: string, i: nat): nat
    requires i + 2 <= |s| && IsDigit(s[i]) && IsDigit(s[i + 1])
  {
    DigitValue(s[i]) * 10 + DigitValue(s[i + 1])
  }

  /** `mm:ss` text read back as a number of seconds. */
  predicate ReadsAsShort(s: string, v: int) {
    |s| == 5 && s[2] == ':' && IsDigit(s[0]) && IsDigit(s[1]) && IsDigit(s[3]) && IsDigit(s[4])
    && FieldValue(s, 0) * 60 + FieldValue(s, 3) == v
  }

  /** `HH:mm:ss` text read back as a number of seconds. */
  predicate ReadsAsLong(s: string, v: int) {
    |s| == 8 && s[2] == ':' && s[5] == ':'
    && IsDigit(s[0]) && IsDigit(s[1]) && IsDigit(s[3]) && IsDigit(s[4]) && IsDigit(s[6]) && IsDigit(s[7])
    && FieldValue(s, 0) * 3600 + FieldValue(s, 3) * 60 + FieldValue(s, 6) == v
  }

  /**
   * The Moment set-and-format step, for a parsed value (`None` is `NaN`) on a
   * Moment created at a wall-clock second `now`.
   */
  function MomentFormat(val: Option<int>, now: ClockSecond): (r: string)
    ensures val.None? ==> ReadsAsShort(r, now) && r[..3] == "00:"
    ensures val.Some? && val.value < Hour ==> |r| == 5
    ensures val.Some? && val.value >= Hour ==> |r| == 8
  {
    match val
    case None => ShortFormat(Clock(0, 0, now))
    case Some(v) =>
      var c := ClockOf(TimeOfDay(v));
      if v >= Hour then LongFormat(c) else ShortFormat(c)
  }

  /** secondsToHHMMSS, for the text durations the bot passes it. */
  function SecondsToHHMMSS(seconds: string, now: ClockSecond): string {
    MomentFormat(ParseInt(seconds), now)
  }

  /** Under an hour, the `mm:ss` text reads back as the value. */
  lemma ShortRoundTrip(v: int, now: ClockSecond)
    requires 0 <= v < Hour
    ensures ReadsAsShort(MomentFormat(Some(v), now), v)
  {
    var c := ClockOf(v);
    var r := MomentFormat(Some(v), now);
    assert r == Pad2(c.minutes) + ":" + Pad2(c.seconds);
    assert c.hours == 0;
  }

  /** From one hour to the end of the day, the `HH:mm:ss` text reads back as the value. */
  lemma LongRoundTrip(v: int, now: ClockSecond)
    requires Hour <= v < Day
    ensures ReadsAsLong(MomentFormat(Some(v), now), v)
  {
    var c := ClockOf(v);
    var r := MomentFormat(Some(v), now);
    assert r == Pad2(c.hours) + ":" + Pad2(c.minutes) + ":" + Pad2(c.seconds);
  }

  /** A day or more wraps around: only the time of day is shown, still in the long format. */
  lemma WrapsAfterADay(v: int, now: ClockSecond)
    requires v >= Day
    ensures MomentFormat(Some(v), now) == LongFormat(ClockOf(v % Day))
    ensures ReadsAsLong(MomentFormat(Some(v), now), v % Day)
  {
    var c := ClockOf(v % Day);
    assert MomentFormat(Some(v), now) == Pad2(c.hours) + ":" + Pad2(c.minutes) + ":" + Pad2(c.seconds);
  }

  /** A negative value counts back from midnight, in the short format. */
  lemma NegativeWraps(v: int, now: ClockSecond)
    requires -Day <= v < 0
    ensures MomentFormat(Some(v), now) == ShortFormat(ClockOf(v + Day))
  {
    assert v % Day == v + Day;
  }

  /** The text of a whole number of seconds under an hour formats as that many seconds. */
  lemma FormatsNatText(n: nat, now: ClockSecond)
    requires n < Hour
    ensures ReadsAsShort(SecondsToHHMMSS(NatToString(n), now), n)
  {
    ParseIntRoundTrip(n);
    ShortRoundTrip(n, now);
  }
}
