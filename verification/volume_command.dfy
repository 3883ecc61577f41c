/**
 * The `volume` command of the current bot
 * (`packages/discord-bot/src/commands/volume.ts`): the first argument is
 * validated step by step (present, a number in base 10, within 0..100) and
 * only then handed to the player's `setVolume`; the confirmation is sent
 * only when the player applied it.
 */
module VolumeCommand {
  import opened Wrappers
  import opened Tracks
  import opened Text
  import opened Player
  import QueueCommands

  datatype VolumeReply =
    | MissingValue                        // no argument
    | NotANumber(text: string)            // `parseInt(volume, 10)` is NaN
    | OutOfRange                          // below 0 or above 100
    | Applied(confirmation: Option<string>)   // setVolume was called; its confirmation, if it returned true

  const MaxVolume: int := 100

  /** The command on the voice state: the reply and the new state. */
  function Execute(args: seq<string>, v: Voice, g: GuildId): (r: (VolumeReply, Voice))
    ensures r.0 == MissingValue <==> args == [] || args[0] == ""
    ensures r.0.NotANumber? <==> args != [] && args[0] != "" && ParseInt(args[0]).None?
    ensures r.0 == OutOfRange <==>
      args != [] && args[0] != "" && ParseInt(args[0]).Some? && !(0 <= ParseInt(args[0]).value <= MaxVolume)
    ensures r.0.Applied? ==>
      0 <= ParseInt(args[0]).value <= MaxVolume && r.1 == WithVolume(v, g, ParseInt(args[0]).value)
    ensures r.0.Applied? ==>
      (r.0.confirmation.Some? <==> QueueCommands.Speaking(v, g)) &&
      (r.0.confirmation.Some? ==> r.0.confirmation.value == "Bot volume set to " + args[0] + "%")
    ensures !r.0.Applied? ==> r.1 == v
  {
    if args == [] || args[0] == "" then (MissingValue, v)
    else
      var volume := args[0];
      match ParseInt(volume)
      case None => (NotANumber(volume), v)
      case Some(n) =>
        if n < 0 || n > MaxVolume then (OutOfRange, v)
        else
          var applied := QueueCommands.Speaking(v, g);
          (Applied(if applied then Some("Bot volume set to " + volume + "%") else None), WithVolume(v, g, n))
  }

  /**
   * `volume n` for a whole number `n` up to 100, written in decimal, sets a
   * speaking connection's volume to exactly `n` and leaves other guilds alone.
   */
  lemma SetsWrittenVolume(n: nat, v: Voice, g: GuildId)
    requires n <= 100 && QueueCommands.Speaking(v, g)
    ensures Execute([NatToString(n)], v, g).0.Applied?
    ensures g in Execute([NatToString(n)], v, g).1.connections
    ensures Execute([NatToString(n)], v, g).1.connections[g].volume == n
    ensures forall h :: h != g && h in v.connections ==>
      h in Execute([NatToString(n)], v, g).1.connections && Execute([NatToString(n)], v, g).1.connections[h] == v.connections[h]
  {
    ParseIntRoundTrip(n);
  }

  /** Whatever the argument, only a value the bot accepts reaches the connection. */
  lemma VolumeStaysInRange(args: seq<string>, v: Voice, g: GuildId)
    requires forall h :: h in v.connections ==> 0 <= v.connections[h].volume <= MaxVolume
    ensures forall h :: h in Execute(args, v, g).1.connections ==>
      0 <= Execute(args, v, g).1.connections[h].volume <= MaxVolume
  {
  }

  method Volume(player: Player, message: Message, args: seq<string>) returns (reply: VolumeReply)
    modifies player
    ensures (reply, player.voice) == Execute(args, old(player.voice), message.guildId)
  {
    if args == [] || args[0] == "" {
      return MissingValue;
    }
    var volume := args[0];
    var parsed := ParseInt(volume);
    if parsed.None? {
      return NotANumber(volume);
    }
    if parsed.value < 0 || parsed.value > MaxVolume {
      return OutOfRange;
    }
    var volumeSet := player.SetVolume(message, parsed.value);
    if volumeSet {
      reply := Applied(Some("Bot volume set to " + volume + "%"));
    } else {
      reply := Applied(None);
    }
  }
}
