/**
 * The `play` command of the first bot (`src/commands/play.ts`).
 *
 * The provider is chosen as in the current bot, and an unsupported one is
 * the only check before fetching. Then one of three branches runs: a member
 * in a voice channel with no bot connection makes the bot join, then
 * fetches, queues and plays; a member with the bot connected fetches,
 * queues and plays; anyone else is told to join a channel. A failed join
 * only adds a reply: the chain goes on, so the tracks are queued anyway and
 * `playTrack` finds no connection. A fetch that found nothing still queues
 * `[]`, which creates the guild's entry. A handler that throws before
 * returning a promise (the first bot's YouTube handler on a `list=` query
 * that is not a URL) rejects the chain in the join branch and escapes the
 * command in the connected branch; either way nothing is queued.
 */
module LegacyPlayCommand {
  import opened Wrappers
  import opened Tracks
  import opened Text
  import opened QueueStore
  import opened LegacyQueue
  import opened LegacyPlayer
  import LegacyUtils
  import Dispatch
  import LegacyDispatch

  datatype LegacyPlayReply =
    | Unsupported
    | NotInVoiceChannel
    | HandlerThrew(joinError: bool)
    | Queued(joinError: bool, outcome: PlayOutcome)

  /** The provider: YouTube for a search, YouTube or nothing for a URL. */
  function ChooseProvider(query: string, isURL: string -> bool): Option<Provider> {
    if !isURL(query) then Some(YouTube) else LegacyUtils.DetectURLProvider(query)
  }

  /** The tracks the first bot's handlers resolve to, or `None` when the handler throws. */
  function Fetched(svcs: Dispatch.Services, provider: Provider, query: string, message: Message): Option<seq<Track>> {
    LegacyDispatch.SwitchFetchMetadataProvider(svcs, provider, query, message)
  }

  /** The command on the queue contents and the voice state. */
  function Execute(svcs: Dispatch.Services, isURL: string -> bool, inVoiceChannel: bool, joins: bool,
                   message: Message, args: seq<string>, qs: Queues, v: Voice, token: string): (r: (LegacyPlayReply, Queues, Voice))
    ensures var provider := ChooseProvider(Join(args, " "), isURL);
      (r.0 == Unsupported <==> provider.None?) &&
      (r.0 == NotInVoiceChannel <==> provider.Some? && !inVoiceChannel) &&
      (r.0.HandlerThrew? <==> provider.Some? && inVoiceChannel && Fetched(svcs, provider.value, Join(args, " "), message).None?) &&
      (r.0.Queued? ==> r.1 == WithTracksAdded(qs, message.guildId, Fetched(svcs, provider.value, Join(args, " "), message).value))
    ensures !r.0.Queued? ==> r.1 == qs
    ensures (r.0.Queued? || r.0.HandlerThrew?) ==>
      (r.0.joinError <==> message.guildId !in v.speaking && !joins)
    ensures r.0.Queued? && r.0.joinError ==> r.0.outcome == NotConnected && r.2 == v
    ensures r.0.Queued? ==> message.guildId in r.1
  {
    var g := message.guildId;
    var query := Join(args, " ");
    var provider := ChooseProvider(query, isURL);
    if provider.None? then (Unsupported, qs, v)
    else if !inVoiceChannel then (NotInVoiceChannel, qs, v)
    else
      var joinError := g !in v.speaking && !joins;
      var v1 := if g !in v.speaking && joins then Voice(v.speaking[g := false], v.playbacks) else v;
      match Fetched(svcs, provider.value, query, message)
      case None => (HandlerThrew(joinError), qs, v1)
      case Some(tracks) =>
        var qs1 := WithTracksAdded(qs, g, tracks);
        var queue := QueueOf(qs1, g);
        var o := PlayDecision(v1, message, if queue == [] then None else Some(queue[0]), token);
        (Queued(joinError, o), qs1, AfterPlay(v1, g, o))
  }

  /** A failed join does not stop the chain: the fetched tracks are queued, and nothing plays. */
  lemma QueuedDespiteJoinError(svcs: Dispatch.Services, isURL: string -> bool, message: Message, args: seq<string>,
                               qs: Queues, v: Voice, token: string)
    requires ChooseProvider(Join(args, " "), isURL).Some?
    requires Fetched(svcs, ChooseProvider(Join(args, " "), isURL).value, Join(args, " "), message).Some?
    requires message.guildId !in v.speaking
    ensures var r := Execute(svcs, isURL, true, false, message, args, qs, v, token);
      var tracks := Fetched(svcs, ChooseProvider(Join(args, " "), isURL).value, Join(args, " "), message).value;
      r.0 == Queued(true, NotConnected) && QueueOf(r.1, message.guildId) == QueueOf(qs, message.guildId) + tracks &&
      r.2 == v
  {
  }

  /** A fetch that found nothing still creates the guild's (empty) queue. */
  lemma EmptyFetchCreatesEntry(svcs: Dispatch.Services, isURL: string -> bool, joins: bool, message: Message, args: seq<string>,
                               qs: Queues, v: Voice, token: string)
    requires ChooseProvider(Join(args, " "), isURL).Some?
    requires Fetched(svcs, ChooseProvider(Join(args, " "), isURL).value, Join(args, " "), message) == Some([])
    requires message.guildId !in qs
    ensures var r := Execute(svcs, isURL, true, joins, message, args, qs, v, token);
      r.0.Queued? && !r.0.outcome.Started? && message.guildId in r.1 && r.1[message.guildId] == []
  {
    var r := Execute(svcs, isURL, true, joins, message, args, qs, v, token);
    assert QueueOf(qs, message.guildId) + [] == [];
  }

  /**
   * Into a new guild with a silent connection, the first fetched track
   * plays while the store keeps all of them: the state the end handler
   * starts from.
   */
  lemma FirstPlayKeepsAll(svcs: Dispatch.Services, isURL: string -> bool, message: Message, args: seq<string>,
                          qs: Queues, v: Voice, token: string)
    requires ChooseProvider(Join(args, " "), isURL).Some?
    requires Fetched(svcs, ChooseProvider(Join(args, " "), isURL).value, Join(args, " "), message).Some?
    requires Fetched(svcs, ChooseProvider(Join(args, " "), isURL).value, Join(args, " "), message).value != []
    requires message.guildId !in qs && message.guildId in v.speaking && !v.speaking[message.guildId]
    ensures var r := Execute(svcs, isURL, true, false, message, args, qs, v, token);
      var tracks := Fetched(svcs, ChooseProvider(Join(args, " "), isURL).value, Join(args, " "), message).value;
      r.0.Queued? && r.0.outcome.Started? && r.0.outcome.playback.track == tracks[0] &&
      QueueOf(r.1, message.guildId) == tracks
  {
    var tracks := Fetched(svcs, ChooseProvider(Join(args, " "), isURL).value, Join(args, " "), message).value;
    assert [] + tracks == tracks;
  }

  method Play(player: LegacyPlayer, svcs: Dispatch.Services, isURL: string -> bool, inVoiceChannel: bool, joins: bool,
              message: Message, args: seq<string>) returns (reply: LegacyPlayReply)
    requires player.store.Valid()
    modifies player, player.store
    ensures player.store.Valid()
    ensures (reply, player.store.Contents(), player.voice) ==
      Execute(svcs, isURL, inVoiceChannel, joins, message, args, old(player.store.Contents()), old(player.voice), player.token)
  {
    ghost var c0, v0 := player.store.Contents(), player.voice;
    var g := message.guildId;
    var query := Join(args, " ");
    var provider := if !isURL(query) then Some(YouTube) else LegacyUtils.DetectURLProvider(query);
    if provider.None? {
      return Unsupported;
    }
    if !inVoiceChannel {
      return NotInVoiceChannel;
    }
    var joinError := false;
    if g !in player.voice.speaking {
      if joins {
        player.voice := Voice(player.voice.speaking[g := false], player.voice.playbacks);
      } else {
        joinError := true;
      }
    }
    var fetched := LegacyDispatch.SwitchFetchMetadataProvider(svcs, provider.value, query, message);
    if fetched.None? {
      return HandlerThrew(joinError);
    }
    var o := QueueAndPlay(player, message, fetched.value);
    reply := Queued(joinError, o);
  }

  /** The end of both connected branches: the fetched tracks are queued, then `playTrack` gets the array `addTracks` returned. */
  method QueueAndPlay(player: LegacyPlayer, message: Message, fetched: seq<Track>) returns (o: PlayOutcome)
    requires player.store.Valid()
    modifies player, player.store
    ensures player.store.Valid()
    ensures player.store.Contents() == WithTracksAdded(old(player.store.Contents()), message.guildId, fetched)
    ensures var queue := QueueOf(player.store.Contents(), message.guildId);
      o == PlayDecision(old(player.voice), message, if queue == [] then None else Some(queue[0]), player.token)
    ensures player.voice == AfterPlay(old(player.voice), message.guildId, o)
  {
    var queue := AddQueue(player.store, message, fetched);
    ghost var stored := player.store.queues;
    ghost var added := player.store.Contents();
    o := player.PlayTrack(message, queue);
    assert player.store.queues == stored;
    assert forall h :: h in stored ==> stored[h].items == added[h];
    assert player.store.Contents() == added;
  }

  /** `addTracks` on a fresh array of the fetched tracks: the queue handed back is none of the stored arrays. */
  method AddQueue(store: LegacyGuildQueues, message: Message, fetched: seq<Track>) returns (queue: JsArray)
    requires store.Valid()
    modifies store
    ensures store.Valid()
    ensures store.Contents() == WithTracksAdded(old(store.Contents()), message.guildId, fetched)
    ensures queue.items == QueueOf(store.Contents(), message.guildId)
    ensures fresh(queue)
    ensures forall h :: h in store.queues ==> store.queues[h] != queue
  {
    var tracks := new JsArray(fetched);
    ghost var before := store.queues;
    queue := store.AddTracks(message, tracks);
    forall h | h in store.queues
      ensures store.queues[h] != queue
    {
      if h != message.guildId {
        assert h in before && store.queues[h] == before[h];
      }
    }
  }
}
