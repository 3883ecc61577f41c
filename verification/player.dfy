/**
 * The playback engine of the current bot (`packages/discord-bot/src/player/player.ts`).
 *
 * A guild's voice connection is reduced to whether it is speaking and its
 * dispatcher's volume; a started dispatcher remembers its track, how it is
 * fed (a readable stream or an arbitrary input URL) and the message its
 * `end` handler is given. Starting a dispatcher makes the connection speak;
 * its `end` event silences it and runs `onTrackEnd`, which pops exactly one
 * track from the queue store and plays the new head, or leaves the channel.
 *
 * Each method of `Player` is proved against a function on the voice state
 * and the queue collection; the lemmas at the end follow a queue through
 * successive `end` events and show that every queued track is played, in
 * order.
 */
module Player {
  import opened Wrappers
  import opened Tracks
  import opened QueueStore
  import Dispatch

  /** A voice connection: whether it is speaking, and its dispatcher's volume in percent. */
  datatype Connection = Connection(speaking: bool, volume: int)

  /** How a dispatcher is fed: `playStream` or `playArbitraryInput`. */
  datatype Path = ReadableStream(stream: Readable) | ArbitraryInput(url: string)

  /** A started dispatcher. */
  datatype Playback = Playback(track: Track, path: Path, message: Message)

  /** The voice connections and dispatchers of every guild. */
  datatype Voice = Voice(connections: map<GuildId, Connection>, playbacks: map<GuildId, Playback>)

  /** What `playTrack` did. */
  datatype PlayOutcome = NotConnected | AlreadySpeaking | NothingToPlay | Started(playback: Playback)

  /** `if (stream.stream) ... else if (stream.arbitraryURL && !stream.stream) ...`. */
  function ChoosePath(sp: StreamProvider): Option<Path> {
    if sp.stream.Some? then Some(ReadableStream(sp.stream.value))
    else if sp.arbitraryURL.Some? then Some(ArbitraryInput(sp.arbitraryURL.value))
    else None
  }

  /**
   * Exactly one way of playing runs for every track: a YouTube track takes
   * the readable-stream path, a SoundCloud track the arbitrary-input path.
   */
  lemma ExactlyOnePath(track: Track, token: string)
    ensures ChoosePath(Dispatch.HandleStreamProvider(track.provider, track, token)).Some?
    ensures ChoosePath(Dispatch.HandleStreamProvider(track.provider, track, token)).value.ReadableStream? <==> track.provider == YouTube
    ensures ChoosePath(Dispatch.HandleStreamProvider(track.provider, track, token)).value.ArbitraryInput? <==> track.provider == SoundCloud
  {
  }

  /** playTrack's guards, in order, then the dispatcher it starts for `tracks[0]`. */
  function PlayDecision(v: Voice, message: Message, tracks: seq<Track>, token: string): (o: PlayOutcome)
    ensures o == NotConnected <==> message.guildId !in v.connections
    ensures o == AlreadySpeaking <==> message.guildId in v.connections && v.connections[message.guildId].speaking
    ensures o == NothingToPlay <==>
      message.guildId in v.connections && !v.connections[message.guildId].speaking && tracks == []
    ensures o.Started? <==>
      message.guildId in v.connections && !v.connections[message.guildId].speaking && tracks != []
    ensures o.Started? ==> o.playback.track == tracks[0] && o.playback.message == message
  {
    var g := message.guildId;
    if g !in v.connections then NotConnected
    else if v.connections[g].speaking then AlreadySpeaking
    else if |tracks| <= 0 then NothingToPlay
    else
      var track := tracks[0];
      ExactlyOnePath(track, token);
      Started(Playback(track, ChoosePath(Dispatch.HandleStreamProvider(track.provider, track, token)).value, message))
  }

  /** The voice state after `playTrack`: a started dispatcher makes the connection speak. */
  function AfterPlay(v: Voice, g: GuildId, o: PlayOutcome): (r: Voice)
    requires o.Started? ==> g in v.connections
  {
    if o.Started? then
      Voice(v.connections[g := v.connections[g].(speaking := true)], v.playbacks[g := o.playback])
    else v
  }

  /** The dispatcher ended: the connection is silent and has no dispatcher. */
  function Silenced(v: Voice, g: GuildId): (r: Voice)
    ensures g !in r.playbacks && (g in r.connections <==> g in v.connections)
    ensures g in r.connections ==> !r.connections[g].speaking && r.connections[g].volume == v.connections[g].volume
  {
    var conns := if g in v.connections then v.connections[g := v.connections[g].(speaking := false)] else v.connections;
    Voice(conns, v.playbacks - {g})
  }

  /** Leaving the channel or disconnecting forgets the connection and its dispatcher. */
  function Left(v: Voice, g: GuildId): (r: Voice)
    ensures g !in r.connections && g !in r.playbacks
    ensures forall h :: h != g ==> (h in r.connections <==> h in v.connections) && (h in r.playbacks <==> h in v.playbacks)
  {
    Voice(v.connections - {g}, v.playbacks - {g})
  }

  /**
   * onTrackEnd's effect on the voice state, given the queue collection
   * before its one pop: the new head is played, from its initiator, or the
   * channel is left if a connection exists.
   */
  function EndVoice(qs: Queues, v: Voice, message: Message, token: string): Voice {
    var q := QueueOf(WithFirstRemoved(qs, message.guildId), message.guildId);
    if |q| > 0 then
      var next := q[0].initiator;
      var o := PlayDecision(v, next, q, token);
      AfterPlay(v, next.guildId, o)
    else if message.guildId in v.connections then Left(v, message.guildId)
    else v
  }

  /** stopTrack: the reason the dispatcher is ended with, if it is ended at all. */
  function StopDecision(v: Voice, g: GuildId): (reason: Option<string>)
    ensures reason.Some? <==> g in v.connections && v.connections[g].speaking
    ensures reason.Some? ==> reason.value == "skip"
  {
    if g in v.connections && v.connections[g].speaking then Some("skip") else None
  }

  /** setVolume: a speaking connection takes the new volume. */
  function WithVolume(v: Voice, g: GuildId, volume: int): (r: Voice)
    ensures g in v.connections && v.connections[g].speaking ==>
      r.connections == v.connections[g := v.connections[g].(volume := volume)] && r.playbacks == v.playbacks
    ensures !(g in v.connections && v.connections[g].speaking) ==> r == v
  {
    if g in v.connections && v.connections[g].speaking then
      Voice(v.connections[g := v.connections[g].(volume := volume)], v.playbacks)
    else v
  }

  /** The engine: the queue store it pops, and the voice state of every guild. */
  class Player {
    const store: GuildQueues
    var voice: Voice
    /** `process.env['SOUNDCLOUD_TOKEN']`. */
    const token: string

    constructor (store: GuildQueues, token: string)
      ensures this.store == store && this.token == token && voice == Voice(map[], map[])
    {
      this.store := store;
      this.token := token;
      voice := Voice(map[], map[]);
    }

    /** playTrack: never touches the queue; starts `tracks[0]` when connected and silent. */
    method PlayTrack(message: Message, tracks: seq<Track>) returns (o: PlayOutcome)
      modifies this
      ensures o == PlayDecision(old(voice), message, tracks, token)
      ensures voice == AfterPlay(old(voice), message.guildId, o)
    {
      var guildID := message.guildId;
      if guildID !in voice.connections {
        return NotConnected;
      }
      var guildVoiceConnection := voice.connections[guildID];
      if guildVoiceConnection.speaking {
        return AlreadySpeaking;
      }
      if |tracks| <= 0 {
        return NothingToPlay;
      }
      var track := tracks[0];
      var stream := Dispatch.HandleStreamProvider(track.provider, track, token);
      ExactlyOnePath(track, token);
      var path: Path;
      if stream.stream.Some? {
        path := ReadableStream(stream.stream.value);
      } else {
        path := ArbitraryInput(stream.arbitraryURL.value);
      }
      var playback := Playback(track, path, message);
      voice := Voice(voice.connections[guildID := guildVoiceConnection.(speaking := true)],
                     voice.playbacks[guildID := playback]);
      o := Started(playback);
    }

    /** stopTrack: ends a speaking connection's dispatcher with `'skip'`; otherwise replies. */
    method StopTrack(message: Message) returns (endReason: Option<string>)
      ensures endReason == StopDecision(voice, message.guildId)
    {
      var guildID := message.guildId;
      if guildID in voice.connections && voice.connections[guildID].speaking {
        endReason := Some("skip");
      } else {
        endReason := None;
      }
    }

    /** cleanPlayer: the queue is always removed; the connection is dropped if it exists. */
    method CleanPlayer(message: Message)
      modifies store
      modifies this
      ensures store.queues == WithoutQueue(old(store.queues), message.guildId)
      ensures voice == (if message.guildId in old(voice.connections) then Left(old(voice), message.guildId) else old(voice))
    {
      store.RemoveQueue(message);
      if message.guildId in voice.connections {
        voice := Left(voice, message.guildId);
      }
    }

    /** setVolume: refused (false) unless connected and speaking. */
    method SetVolume(message: Message, volume: int) returns (applied: bool)
      modifies this
      ensures applied <==> message.guildId in old(voice.connections) && old(voice.connections[message.guildId].speaking)
      ensures voice == WithVolume(old(voice), message.guildId, volume)
    {
      var guildID := message.guildId;
      if guildID !in voice.connections {
        return false;
      }
      if !voice.connections[guildID].speaking {
        return false;
      }
      voice := Voice(voice.connections[guildID := voice.connections[guildID].(volume := volume)], voice.playbacks);
      applied := true;
    }

    /** onTrackEnd: one pop, whatever the reason; then the new head is played, or the channel left. */
    method OnTrackEnd(reason: string, message: Message)
      modifies store
      modifies this
      ensures store.queues == WithFirstRemoved(old(store.queues), message.guildId)
      ensures voice == EndVoice(old(store.queues), old(voice), message, token)
    {
      var connected := message.guildId in voice.connections;
      var guildQueue := store.RemoveFirstTrack(message);
      if |guildQueue| > 0 {
        var _ := PlayTrack(guildQueue[0].initiator, guildQueue);
      } else if connected {
        voice := Left(voice, message.guildId);
      }
    }

    /** The `end` event of a guild's dispatcher: it falls silent, and its handler runs `onTrackEnd`. */
    method DispatcherEnd(reason: string, g: GuildId)
      requires g in voice.playbacks
      modifies store
      modifies this
      ensures store.queues == WithFirstRemoved(old(store.queues), old(voice.playbacks[g].message).guildId)
      ensures voice == EndVoice(old(store.queues), Silenced(old(voice), g), old(voice.playbacks[g].message), token)
    {
      var message := voice.playbacks[g].message;
      voice := Silenced(voice, g);
      OnTrackEnd(reason, message);
    }
  }

  // ---------------------------------------------------------------------
  // Following a queue through its end events
  // ---------------------------------------------------------------------

  /** The state after one `end` event of guild `g`'s dispatcher. */
  function EndEvent(qs: Queues, v: Voice, g: GuildId, token: string): (Queues, Voice)
    requires g in v.playbacks
  {
    var message := v.playbacks[g].message;
    (WithFirstRemoved(qs, message.guildId), EndVoice(qs, Silenced(v, g), message, token))
  }

  /** Every track of the queue was queued by a message of its guild. */
  predicate QueuedFrom(q: seq<Track>, g: GuildId) {
    forall i :: 0 <= i < |q| ==> q[i].initiator.guildId == g
  }

  /**
   * The state the engine keeps while it plays guild `g`: its queue is `q`,
   * connected, and the dispatcher plays the head from a message of `g`.
   */
  predicate PlayingHead(qs: Queues, v: Voice, g: GuildId, q: seq<Track>) {
    QueueOf(qs, g) == q && |q| > 0 && g in v.connections && v.connections[g].speaking && g in v.playbacks &&
    v.playbacks[g].track == q[0] && v.playbacks[g].message.guildId == g
  }

  /**
   * One `end` event while the head is playing: the head leaves the queue and
   * the next track plays; after the last track the entry is deleted and the
   * channel left.
   */
  lemma EndAdvances(qs: Queues, v: Voice, g: GuildId, q: seq<Track>, token: string)
    requires PlayingHead(qs, v, g, q) && QueuedFrom(q, g)
    ensures var (qs', v') := EndEvent(qs, v, g, token);
      (|q| > 1 ==> PlayingHead(qs', v', g, q[1..]) && v'.playbacks[g].message == q[1].initiator) &&
      (|q| == 1 ==> g !in qs' && g !in v'.connections && g !in v'.playbacks)
  {
    var message := v.playbacks[g].message;
    var s := Silenced(v, g);
    var q' := QueueOf(WithFirstRemoved(qs, g), g);
    assert q' == q[1..];
    if |q| > 1 {
      var o := PlayDecision(s, q[1].initiator, q', token);
      assert o.Started?;
    }
  }

  /** `n` successive `end` events of guild `g`'s dispatcher, while it keeps one. */
  function Ends(qs: Queues, v: Voice, g: GuildId, n: nat, token: string): (Queues, Voice)
    decreases n
  {
    if n == 0 || g !in v.playbacks then (qs, v)
    else
      var (qs', v') := EndEvent(qs, v, g, token);
      Ends(qs', v', g, n - 1, token)
  }

  /**
   * The engine plays every queued track, in order: after `k` end events the
   * `k`-th track plays and the queue is what follows it; after as many end
   * events as tracks, the guild's queue is gone and the channel left.
   */
  lemma {:induction false} EndsPlayInOrder(qs: Queues, v: Voice, g: GuildId, q: seq<Track>, k: nat, token: string)
    requires PlayingHead(qs, v, g, q) && QueuedFrom(q, g) && k <= |q|
    ensures var (qs', v') := Ends(qs, v, g, k, token);
      (k < |q| ==> PlayingHead(qs', v', g, q[k..])) &&
      (k == |q| ==> g !in qs' && g !in v'.connections && g !in v'.playbacks)
    decreases k
  {
    if k > 0 {
      var (qs1, v1) := EndEvent(qs, v, g, token);
      EndAdvances(qs, v, g, q, token);
      if |q| > 1 {
        assert QueuedFrom(q[1..], g);
        EndsPlayInOrder(qs1, v1, g, q[1..], k - 1, token);
        assert q[1..][k - 1..] == q[k..];
      } else {
        assert k == 1;
        assert Ends(qs1, v1, g, 0, token) == (qs1, v1);
      }
    }
  }
}
