/**
 * The older copy of the helpers in the current bot
 * (`packages/discord-bot/src/utils.ts`). Its `detectURLProvider` and
 * `providersList` are the same definitions as `ProviderList`'s, over the same
 * two-provider list. Its `secondsToHHMMSS` differs from `Time`'s in one
 * respect: it calls `parseInt` without a radix, so text starting with `0x`
 * is read in base 16.
 */
module Utils {
  import opened Wrappers
  import opened Text
  import Time

  /** secondsToHHMMSS, for the text durations the bot passes it. */
  function SecondsToHHMMSS(seconds: string, now: Time.ClockSecond): string {
    Time.MomentFormat(ParseIntAuto(seconds), now)
  }

  /**
   * On the text of a whole number (not followed by a digit, nor by `x` after
   * a lone `0`), both formatters show the same thing.
   */
  lemma AgreesOnDecimalText(n: nat, rest: string, now: Time.ClockSecond)
    requires rest == [] || !IsDigit(rest[0])
    requires n == 0 ==> rest == [] || (rest[0] != 'x' && rest[0] != 'X')
    ensures SecondsToHHMMSS(NatToString(n) + rest, now) == Time.SecondsToHHMMSS(NatToString(n) + rest, now)
  {
    ParseIntOfNatText(n, rest);
    ParseIntAutoOfNatText(n, rest);
  }

  /** `"0x1f"` is 31 seconds here, and 0 seconds in `Time`. */
  lemma HexTextDiffers(now: Time.ClockSecond)
    ensures Time.ReadsAsShort(SecondsToHHMMSS("0x1f", now), 31)
    ensures Time.ReadsAsShort(Time.SecondsToHHMMSS("0x1f", now), 0)
    ensures SecondsToHHMMSS("0x1f", now) != Time.SecondsToHHMMSS("0x1f", now)
  {
    RadixDiffers();
    Time.ShortRoundTrip(31, now);
    Time.ShortRoundTrip(0, now);
  }
}
