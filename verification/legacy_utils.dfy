/**
 * The helpers of the first bot (`src/utils.ts`): YouTube is the only
 * supported provider, and `secondsToHHMMSS` always formats `mm:ss` of the
 * time of day reached by adding the seconds to midnight, so the hours of a
 * duration of an hour or more are dropped. Moment's setter skips a `NaN`
 * value, so text that does not parse shows midnight itself, `00:00`.
 */
module LegacyUtils {
  import opened Wrappers
  import opened Tracks
  import opened Text
  import ProviderList
  import Time
  import Utils

  /** The `providers` constant of the first bot. */
  const Supported: seq<Provider> := [YouTube]

  /** detectURLProvider over the YouTube-only list. */
  function DetectURLProvider(url: string): Option<Provider> {
    ProviderList.FindProvider(Supported, url)
  }

  /** Detection gives `youtube` exactly when the URL contains it, and nothing else. */
  lemma DetectOutcomes(url: string)
    ensures DetectURLProvider(url) == Some(YouTube) <==> Contains(url, "youtube")
    ensures DetectURLProvider(url).None? <==> !Contains(url, "youtube")
  {
    assert Supported[0].Name() == "youtube";
  }

  /** secondsToHHMMSS: `startOf('day').seconds(val).format('mm:ss')`. */
  function SecondsToHHMMSS(seconds: string): (r: string)
    ensures ParseIntAuto(seconds).None? ==> r == "00:00"
  {
    match ParseIntAuto(seconds)
    case None => Time.ShortFormat(Time.ClockOf(0))
    case Some(v) => Time.ShortFormat(Time.ClockOf(Time.TimeOfDay(v)))
  }

  /** Any number gives five characters `mm:ss`: the hours never appear. */
  lemma AlwaysShort(seconds: string, v: int)
    requires ParseIntAuto(seconds) == Some(v)
    ensures Time.ReadsAsShort(SecondsToHHMMSS(seconds), v % Time.Day % 3600)
  {
    var c := Time.ClockOf(v % Time.Day);
    assert SecondsToHHMMSS(seconds) == Time.Pad2(c.minutes) + ":" + Time.Pad2(c.seconds);
  }

  /** Under an hour, the first bot shows what the current one shows. */
  lemma AgreesUnderAnHour(seconds: string, v: int, now: Time.ClockSecond)
    requires ParseIntAuto(seconds) == Some(v) && 0 <= v < Time.Hour
    ensures SecondsToHHMMSS(seconds) == Utils.SecondsToHHMMSS(seconds, now)
  {
  }

  /** From one hour to the end of the day, the first bot shows the current text without its hours. */
  lemma DropsHours(seconds: string, v: int, now: Time.ClockSecond)
    requires ParseIntAuto(seconds) == Some(v) && Time.Hour <= v < Time.Day
    ensures SecondsToHHMMSS(seconds) == Utils.SecondsToHHMMSS(seconds, now)[3..]
  {
    var c := Time.ClockOf(v);
    var long := Time.LongFormat(c);
    assert long == Time.Pad2(c.hours) + ":" + (Time.Pad2(c.minutes) + ":" + Time.Pad2(c.seconds));
    assert long[3..] == Time.Pad2(c.minutes) + ":" + Time.Pad2(c.seconds);
  }

  /**
   * On text that does not parse, the first bot shows midnight and the current
   * one the wall clock's second: they agree only at second 0.
   */
  lemma UnparsableAgreesOnlyAtSecondZero(seconds: string, now: Time.ClockSecond)
    requires ParseIntAuto(seconds).None?
    ensures SecondsToHHMMSS(seconds) == Utils.SecondsToHHMMSS(seconds, now) <==> now == 0
  {
    var first := SecondsToHHMMSS(seconds);
    var current := Utils.SecondsToHHMMSS(seconds, now);
    assert first == Time.Pad2(0) + ":" + Time.Pad2(0);
    assert current == Time.Pad2(0) + ":" + Time.Pad2(now);
    if first == current {
      assert first[3..] == Time.Pad2(0) && current[3..] == Time.Pad2(now);
    }
  }
}
