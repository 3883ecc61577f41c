/**
 * The playback engine of the first bot (`src/player/player.ts`).
 *
 * `playTrack` shifts the array it is given before any guard, then plays the
 * element it shifted. Its `end` handler pops the stored queue once and, if
 * tracks remain, calls `playTrack` again with the array `removeFirstTrack`
 * handed back, which is the live stored array: that second shift also
 * removes the new head from the store. From the second track on, the store
 * therefore no longer holds the track being played, and the next pop drops
 * a track that was never played (`LegacyEndsSkip`).
 */
module LegacyPlayer {
  import opened Wrappers
  import opened Tracks
  import opened QueueStore
  import opened LegacyQueue
  import LegacyDispatch

  /** A started dispatcher: the track, the locator given to `playStream`, and the guild of its connection. */
  datatype Playback = Playback(track: Track, stream: StreamProvider, guild: GuildId)

  /** Whether each guild's connection is speaking, and its dispatcher. */
  datatype Voice = Voice(speaking: map<GuildId, bool>, playbacks: map<GuildId, Playback>)

  datatype PlayOutcome = NotConnected | AlreadySpeaking | NothingToPlay | Started(playback: Playback)

  /** What `array.shift()` leaves. */
  function Tail(items: seq<Track>): seq<Track> {
    if items == [] then [] else items[1..]
  }

  /** The guards of playTrack, on the element it already shifted (`None` for `undefined`). */
  function PlayDecision(v: Voice, message: Message, track: Option<Track>, token: string): (o: PlayOutcome)
    ensures o == NotConnected <==> message.guildId !in v.speaking
    ensures o == AlreadySpeaking <==> message.guildId in v.speaking && v.speaking[message.guildId]
    ensures o == NothingToPlay <==> message.guildId in v.speaking && !v.speaking[message.guildId] && track.None?
    ensures o.Started? <==> message.guildId in v.speaking && !v.speaking[message.guildId] && track.Some?
    ensures o.Started? ==> o.playback.track == track.value && o.playback.guild == message.guildId
  {
    var g := message.guildId;
    if g !in v.speaking then NotConnected
    else if v.speaking[g] then AlreadySpeaking
    else match track
      case None => NothingToPlay
      case Some(t) => Started(Playback(t, LegacyDispatch.HandleStreamProvider(t.provider, t, token), g))
  }

  function AfterPlay(v: Voice, g: GuildId, o: PlayOutcome): Voice {
    if o.Started? then Voice(v.speaking[g := true], v.playbacks[g := o.playback]) else v
  }

  function Silenced(v: Voice, g: GuildId): (r: Voice)
    ensures g !in r.playbacks
  {
    Voice(if g in v.speaking then v.speaking[g := false] else v.speaking, v.playbacks - {g})
  }

  function Left(v: Voice, g: GuildId): (r: Voice)
    ensures g !in r.speaking && g !in r.playbacks
  {
    Voice(v.speaking - {g}, v.playbacks - {g})
  }

  /**
   * The queue contents after the `end` handler of a dispatcher started from
   * `initiator`: one pop, then, if tracks remain, the shift of the next
   * `playTrack` on the live array (whose entry stays, even emptied).
   */
  function EndContents(qs: Queues, initiator: Message): (r: Queues)
    ensures var popped := QueueOf(WithFirstRemoved(qs, initiator.guildId), initiator.guildId);
      QueueOf(r, initiator.guildId) == Tail(popped) &&
      (initiator.guildId in r <==> |popped| > 0)
    ensures forall h :: h != initiator.guildId ==> (h in r <==> h in qs) && QueueOf(r, h) == QueueOf(qs, h)
  {
    var g := initiator.guildId;
    var popped := WithFirstRemoved(qs, g);
    var q := QueueOf(popped, g);
    if |q| > 0 then popped[g := Tail(q)] else popped
  }

  /** The voice state after that handler: the shifted track plays, or the connection's channel is left. */
  function EndVoice(qs: Queues, v: Voice, pb: Playback, token: string): Voice {
    var initiator := pb.track.initiator;
    var q := QueueOf(WithFirstRemoved(qs, initiator.guildId), initiator.guildId);
    if |q| > 0 then AfterPlay(v, initiator.guildId, PlayDecision(v, initiator, Some(q[0]), token))
    else Left(v, pb.guild)
  }

  /** The engine of the first bot. */
  class LegacyPlayer {
    const store: LegacyGuildQueues
    var voice: Voice
    const token: string

    constructor (store: LegacyGuildQueues, token: string)
      ensures this.store == store && this.token == token && voice == Voice(map[], map[])
    {
      this.store := store;
      this.token := token;
      voice := Voice(map[], map[]);
    }

    /** playTrack: the shift happens first, whatever the guards then decide. */
    method PlayTrack(message: Message, tracks: JsArray) returns (o: PlayOutcome)
      modifies this, tracks
      ensures tracks.items == Tail(old(tracks.items))
      ensures o == PlayDecision(old(voice), message, if old(tracks.items) == [] then None else Some(old(tracks.items)[0]), token)
      ensures voice == AfterPlay(old(voice), message.guildId, o)
    {
      var guildID := message.guildId;
      var track := tracks.Shift();
      if guildID !in voice.speaking {
        return NotConnected;
      }
      if voice.speaking[guildID] {
        return AlreadySpeaking;
      }
      if track.None? {
        return NothingToPlay;
      }
      var t := track.value;
      var stream := LegacyDispatch.HandleStreamProvider(t.provider, t, token);
      var playback := Playback(t, stream, guildID);
      voice := Voice(voice.speaking[guildID := true], voice.playbacks[guildID := playback]);
      o := Started(playback);
    }

    /** The `end` event of guild `g`'s dispatcher: it falls silent, then the handler pops and replays. */
    method DispatcherEnd(g: GuildId)
      requires store.Valid() && g in voice.playbacks
      modifies this, store, store.queues.Values
      ensures store.Valid()
      ensures store.Contents() == EndContents(old(store.Contents()), old(voice.playbacks[g]).track.initiator)
      ensures voice == EndVoice(old(store.Contents()), Silenced(old(voice), g), old(voice.playbacks[g]), token)
    {
      var pb := voice.playbacks[g];
      var initiator := pb.track.initiator;
      voice := Silenced(voice, g);
      ghost var before := store.Contents();
      var guildQueue := store.RemoveFirstTrack(initiator);
      ghost var popped := store.Contents();
      assert popped == WithFirstRemoved(before, initiator.guildId);
      ghost var ended := EndContents(before, initiator);
      if |guildQueue.items| > 0 {
        assert initiator.guildId in store.queues && guildQueue == store.queues[initiator.guildId];
        assert ended == popped[initiator.guildId := Tail(popped[initiator.guildId])];
        var _ := PlayStoredHead(initiator);
        assert store.Contents() == popped[initiator.guildId := Tail(popped[initiator.guildId])];
      } else {
        assert ended == popped;
        voice := Left(voice, pb.guild);
        assert store.Contents() == popped;
      }
    }

    /** `playTrack` handed the guild's live stored array: its shift also removes the head from the store. */
    method PlayStoredHead(initiator: Message) returns (o: PlayOutcome)
      requires store.Valid() && initiator.guildId in store.queues
      modifies this, store.queues[initiator.guildId]
      ensures store.Valid() && store.queues == old(store.queues)
      ensures store.Contents() == old(store.Contents())[initiator.guildId := Tail(old(store.Contents())[initiator.guildId])]
      ensures var q := old(store.Contents())[initiator.guildId];
        o == PlayDecision(old(voice), initiator, if q == [] then None else Some(q[0]), token)
      ensures voice == AfterPlay(old(voice), initiator.guildId, o)
    {
      var q := store.queues[initiator.guildId];
      o := PlayTrack(initiator, q);
      assert forall h :: h in store.queues && h != initiator.guildId ==> store.queues[h] != q;
    }
  }

  // ---------------------------------------------------------------------
  // Following a queue through its end events
  // ---------------------------------------------------------------------

  /** The state after one `end` event of guild `g`'s dispatcher. */
  function EndEvent(qs: Queues, v: Voice, g: GuildId, token: string): (Queues, Voice)
    requires g in v.playbacks
  {
    var pb := v.playbacks[g];
    (EndContents(qs, pb.track.initiator), EndVoice(qs, Silenced(v, g), pb, token))
  }

  /**
   * The state right after the play command of a new guild: the store holds
   * a copy of all of `q`, and the connection plays `q[0]`, shifted off the
   * command's own array.
   */
  predicate JustStarted(qs: Queues, v: Voice, g: GuildId, q: seq<Track>) {
    QueueOf(qs, g) == q && |q| > 0 && g in v.speaking && v.speaking[g] && g in v.playbacks &&
    v.playbacks[g].track == q[0] && v.playbacks[g].guild == g &&
    forall i :: 0 <= i < |q| ==> q[i].initiator.guildId == g
  }

  /**
   * Two `end` events after the start: `q[0]` and `q[1]` have played, but
   * `q[2]` is neither playing nor still queued. The store holds what
   * follows `q[3]`, which plays if it exists.
   */
  lemma LegacyEndsSkip(qs: Queues, v: Voice, g: GuildId, q: seq<Track>, token: string)
    requires JustStarted(qs, v, g, q) && |q| >= 3
    ensures var (qs1, v1) := EndEvent(qs, v, g, token);
      g in v1.playbacks && v1.playbacks[g].track == q[1] && QueueOf(qs1, g) == q[2..] &&
      var (qs2, v2) := EndEvent(qs1, v1, g, token);
      QueueOf(qs2, g) == (if |q| > 3 then q[4..] else []) &&
      (|q| > 3 ==> g in v2.playbacks && v2.playbacks[g].track == q[3]) &&
      (|q| == 3 ==> g !in v2.playbacks && g !in v2.speaking)
  {
    var (qs1, v1) := EndEvent(qs, v, g, token);
    assert QueueOf(WithFirstRemoved(qs, g), g) == q[1..];
    assert q[1..][0] == q[1] && q[1..][1..] == q[2..];
    assert v1.playbacks[g].track == q[1];
    assert v1.playbacks[g].guild == g;
    var (qs2, v2) := EndEvent(qs1, v1, g, token);
    assert QueueOf(WithFirstRemoved(qs1, g), g) == q[3..];
    if |q| > 3 {
      assert q[3..][0] == q[3] && q[3..][1..] == q[4..];
    }
  }

  /** The input that shows it: a queue of four tracks plays the first, second and fourth only. */
  lemma FourTracksPlayThree(qs: Queues, v: Voice, g: GuildId, a: Track, b: Track, c: Track, d: Track, token: string)
    requires JustStarted(qs, v, g, [a, b, c, d])
    ensures var (qs1, v1) := EndEvent(qs, v, g, token);
      v1.playbacks[g].track == b &&
      var (qs2, v2) := EndEvent(qs1, v1, g, token);
      v2.playbacks[g].track == d && QueueOf(qs2, g) == []
  {
    LegacyEndsSkip(qs, v, g, [a, b, c, d], token);
    assert [a, b, c, d][1] == b && [a, b, c, d][3] == d && [a, b, c, d][4..] == [];
  }
}
