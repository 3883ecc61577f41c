/**
 * The `play` command of the current bot
 * (`packages/discord-bot/src/commands/play.ts`).
 *
 * The arguments are joined into one query; a query that is not a URL is a
 * YouTube search, a URL goes to the provider whose name it contains. Five
 * checks follow in order (the member's `CONNECT` and `SPEAK` permissions,
 * the member's voice channel, a supported provider, a YouTube query of at
 * least three characters); the first that fails answers and ends the
 * command. The bot then joins the member's channel if it has no connection;
 * a failed join answers and ends the command. Finally the tracks are
 * fetched: nothing fetched disconnects, otherwise the tracks are queued and
 * `playTrack` is given the guild's whole queue.
 *
 * Discord's permission, voice-channel and join answers are inputs.
 */
module PlayCommand {
  import opened Wrappers
  import opened Tracks
  import opened Text
  import opened QueueStore
  import opened Player
  import ProviderList
  import Dispatch
  import Time

  /** What the command reads of the member who sent it. */
  datatype Member = Member(canConnect: bool, canSpeak: bool, inVoiceChannel: bool)

  datatype PlayReply =
    | MissingConnect
    | MissingSpeak
    | NotInVoiceChannel
    | UnsupportedProvider
    | QueryTooShort
    | JoinFailed
    | NothingFound                         // the connection is disconnected
    | Queued(outcome: PlayOutcome)         // the tracks were queued and playTrack ran

  /** The shortest YouTube search query accepted. */
  const MinQueryLength: nat := 3

  /** The query: the arguments joined with single spaces. */
  function Query(args: seq<string>): string {
    Join(args, " ")
  }

  /** The provider: YouTube for a search, the detected one for a URL. */
  function ChooseProvider(query: string, isURL: string -> bool): Option<Provider> {
    if !isURL(query) then Some(YouTube) else ProviderList.DetectURLProvider(query)
  }

  /** The five checks pass. */
  predicate Accepted(member: Member, query: string, isURL: string -> bool) {
    member.canConnect && member.canSpeak && member.inVoiceChannel &&
    ChooseProvider(query, isURL).Some? &&
    !(ChooseProvider(query, isURL).value == YouTube && |query| < MinQueryLength)
  }

  /** A new connection: silent, at the default full volume. */
  function Joined(v: Voice, g: GuildId): (r: Voice)
    ensures g in r.connections && !r.connections[g].speaking
  {
    Voice(v.connections[g := Connection(false, 100)], v.playbacks)
  }

  /**
   * The tracks `handleProvider` settles to: the fetched list, which it passes
   * on unchanged whatever notification it sends (`Dispatch.UndefinedOnlyOnRejection`).
   */
  function Fetched(svcs: Dispatch.Services, provider: Provider, query: string, message: Message): seq<Track> {
    Dispatch.SwitchFetchMetadataProvider(svcs, provider, query, message)
  }

  /** The command on the queue collection and the voice state. */
  function Execute(svcs: Dispatch.Services, isURL: string -> bool, member: Member, joins: bool,
                   message: Message, args: seq<string>, qs: Queues, v: Voice, token: string): (r: (PlayReply, Queues, Voice))
    ensures var query := Query(args);
      var provider := ChooseProvider(query, isURL);
      (r.0 == MissingConnect <==> !member.canConnect) &&
      (r.0 == MissingSpeak <==> member.canConnect && !member.canSpeak) &&
      (r.0 == NotInVoiceChannel <==> member.canConnect && member.canSpeak && !member.inVoiceChannel) &&
      (r.0 == UnsupportedProvider <==>
        member.canConnect && member.canSpeak && member.inVoiceChannel && provider.None?) &&
      (r.0 == QueryTooShort <==>
        member.canConnect && member.canSpeak && member.inVoiceChannel &&
        provider == Some(YouTube) && |query| < MinQueryLength)
    ensures r.0 == JoinFailed <==> Accepted(member, Query(args), isURL) && message.guildId !in v.connections && !joins
    ensures !r.0.Queued? ==> r.1 == qs
    ensures r.0 == NothingFound <==>
      Accepted(member, Query(args), isURL) && (message.guildId in v.connections || joins) &&
      Fetched(svcs, ChooseProvider(Query(args), isURL).value, Query(args), message) == []
    ensures r.0 == NothingFound ==> message.guildId !in r.2.connections
    ensures r.0.Queued? ==>
      var fetched := Fetched(svcs, ChooseProvider(Query(args), isURL).value, Query(args), message);
      fetched != [] && r.1 == WithTracksAdded(qs, message.guildId, fetched) &&
      message.guildId in r.2.connections
    ensures !r.0.Queued? && r.0 != NothingFound ==> r.2 == v
  {
    var g := message.guildId;
    var query := Query(args);
    var provider := ChooseProvider(query, isURL);
    if !member.canConnect then (MissingConnect, qs, v)
    else if !member.canSpeak then (MissingSpeak, qs, v)
    else if !member.inVoiceChannel then (NotInVoiceChannel, qs, v)
    else if provider.None? then (UnsupportedProvider, qs, v)
    else if provider.value == YouTube && |query| < MinQueryLength then (QueryTooShort, qs, v)
    else if g !in v.connections && !joins then (JoinFailed, qs, v)
    else
      var v1 := if g in v.connections then v else Joined(v, g);
      var tracks := Fetched(svcs, provider.value, query, message);
      if |tracks| <= 0 then (NothingFound, qs, Left(v1, g))
      else
        var qs1 := WithTracksAdded(qs, g, tracks);
        var o := PlayDecision(v1, message, QueueOf(qs1, g), token);
        (Queued(o), qs1, AfterPlay(v1, g, o))
  }

  /** A query that is not a URL is a YouTube search; a URL goes to the provider named in it. */
  lemma ProviderChoice(query: string, isURL: string -> bool)
    ensures !isURL(query) ==> ChooseProvider(query, isURL) == Some(YouTube)
    ensures isURL(query) ==> (ChooseProvider(query, isURL).None? <==>
      !Contains(query, "youtube") && !Contains(query, "soundcloud"))
    ensures isURL(query) && Contains(query, "youtube") ==> ChooseProvider(query, isURL) == Some(YouTube)
  {
    ProviderList.DetectOutcomes(query);
  }

  /**
   * Into a silent connection and an empty queue, the first fetched track
   * starts playing, and the rest stays queued behind it.
   */
  lemma PlaysFirstFetched(svcs: Dispatch.Services, isURL: string -> bool, member: Member, joins: bool,
                          message: Message, args: seq<string>, qs: Queues, v: Voice, token: string)
    requires Accepted(member, Query(args), isURL)
    requires message.guildId in v.connections ==> !v.connections[message.guildId].speaking
    requires message.guildId !in v.connections ==> joins
    requires QueueOf(qs, message.guildId) == []
    requires Fetched(svcs, ChooseProvider(Query(args), isURL).value, Query(args), message) != []
    ensures var r := Execute(svcs, isURL, member, joins, message, args, qs, v, token);
      var fetched := Fetched(svcs, ChooseProvider(Query(args), isURL).value, Query(args), message);
      r.0.Queued? && r.0.outcome.Started? && r.0.outcome.playback.track == fetched[0] &&
      QueueOf(r.1, message.guildId) == fetched
  {
    var fetched := Fetched(svcs, ChooseProvider(Query(args), isURL).value, Query(args), message);
    assert [] + fetched == fetched;
  }

  /**
   * When nothing is found, the connection is dropped even if it was already
   * playing another track, while the queue is left as it was.
   */
  lemma NothingFoundDisconnects(svcs: Dispatch.Services, isURL: string -> bool, member: Member, joins: bool,
                                message: Message, args: seq<string>, qs: Queues, v: Voice, token: string)
    requires Accepted(member, Query(args), isURL)
    requires message.guildId in v.connections && v.connections[message.guildId].speaking
    requires Fetched(svcs, ChooseProvider(Query(args), isURL).value, Query(args), message) == []
    ensures var r := Execute(svcs, isURL, member, joins, message, args, qs, v, token);
      r.0 == NothingFound && r.1 == qs &&
      message.guildId !in r.2.connections && message.guildId !in r.2.playbacks
  {
  }

  /** The command; `now` is the wall-clock second the notification's duration formatter starts at. */
  method Play(player: Player, svcs: Dispatch.Services, isURL: string -> bool, member: Member, joins: bool,
              message: Message, args: seq<string>, now: Time.ClockSecond) returns (reply: PlayReply)
    modifies player, player.store
    ensures (reply, player.store.queues, player.voice) ==
      Execute(svcs, isURL, member, joins, message, args, old(player.store.queues), old(player.voice), player.token)
  {
    var query := Join(args, " ");
    var provider := if !isURL(query) then Some(YouTube) else ProviderList.DetectURLProvider(query);
    if !member.canConnect {
      return MissingConnect;
    }
    if !member.canSpeak {
      return MissingSpeak;
    }
    if !member.inVoiceChannel {
      return NotInVoiceChannel;
    }
    if provider.None? {
      return UnsupportedProvider;
    }
    if provider.value == YouTube && |query| < MinQueryLength {
      return QueryTooShort;
    }
    var g := message.guildId;
    if g !in player.voice.connections {
      if !joins {
        return JoinFailed;
      }
      player.voice := Joined(player.voice, g);
    }
    var handled := Dispatch.HandleProviderWith(svcs, provider.value, query, message, now);
    Dispatch.UndefinedOnlyOnRejection(svcs, provider.value, query, message, now);
    if handled.tracks.None? || |handled.tracks.value| <= 0 {
      player.voice := Left(player.voice, g);
      return NothingFound;
    }
    var guildQueue := player.store.AddTracks(handled.tracks.value, message);
    var o := player.PlayTrack(message, guildQueue);
    reply := Queued(o);
  }
}
