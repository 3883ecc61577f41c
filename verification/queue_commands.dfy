/**
 * The queue-editing commands of the current bot
 * (`packages/discord-bot/src/commands/shuffle.ts`, `removedupes.ts`,
 * `leavecleanup.ts`, `clear.ts`).
 *
 * Each command checks the guild's voice connection and queue, computes a new
 * list from the stored one, and writes it back with one store operation.
 * Each is a function from the voice state and the queue collection to a
 * reply and the new collection, with the command's promise in its contract,
 * and a method that runs the command against the `Player` and its store and
 * is proved to do what that function says.
 */
module QueueCommands {
  import opened Wrappers
  import opened Tracks
  import opened Lists
  import opened QueueStore
  import opened Player

  /** `connection && connection.speaking`. */
  predicate Speaking(v: Voice, g: GuildId) {
    g in v.connections && v.connections[g].speaking
  }

  /** Nothing but guild `g`'s entry may differ between the two collections. */
  ghost predicate OthersUnchanged(qs: Queues, r: Queues, g: GuildId) {
    forall h :: h != g ==> (h in r <==> h in qs) && QueueOf(r, h) == QueueOf(qs, h)
  }

  // ---------------------------------------------------------------------
  // shuffle
  // ---------------------------------------------------------------------

  /** lodash `shuffle` returns some arrangement of its argument; which one is left open. */
  ghost predicate IsShuffle(shuffle: seq<Track> -> seq<Track>) {
    forall s: seq<Track> :: multiset(shuffle(s)) == multiset(s)
  }

  datatype ShuffleReply = NotPlaying | SingleTrack | Shuffled

  /**
   * shuffle: refused unless the connection is speaking, refused for a queue
   * of at most one track; otherwise the playing head stays first and the
   * rest is stored in some new order.
   */
  function ShuffleCommand(v: Voice, qs: Queues, g: GuildId, shuffle: seq<Track> -> seq<Track>): (r: (ShuffleReply, Queues))
    requires IsShuffle(shuffle)
    ensures r.0 == NotPlaying <==> !Speaking(v, g)
    ensures r.0 == SingleTrack <==> Speaking(v, g) && |QueueOf(qs, g)| <= 1
    ensures r.0 != Shuffled ==> r.1 == qs
    ensures r.0 == Shuffled ==> (g in r.1 &&
      var (q, q') := (QueueOf(qs, g), QueueOf(r.1, g));
      |q'| == |q| && q'[0] == q[0] && multiset(q'[1..]) == multiset(q[1..]) && multiset(q') == multiset(q))
    ensures OthersUnchanged(qs, r.1, g)
  {
    var queue := QueueOf(qs, g);
    if !Speaking(v, g) then (NotPlaying, qs)
    else if |queue| <= 1 then (SingleTrack, qs)
    else
      var rest := shuffle(queue[1..]);
      var shuffled := [queue[0]] + rest;
      assert shuffled[1..] == rest;
      assert queue == [queue[0]] + queue[1..];
      assert |rest| == |queue[1..]| by {
        assert |multiset(rest)| == |multiset(queue[1..])|;
      }
      (Shuffled, WithQueueReplaced(qs, g, shuffled))
  }

  /** The shuffled queue holds each queued track as many times as before, so every track still plays. */
  lemma ShuffleKeepsEveryTrack(v: Voice, qs: Queues, g: GuildId, shuffle: seq<Track> -> seq<Track>, t: Track)
    requires IsShuffle(shuffle)
    ensures multiset(QueueOf(ShuffleCommand(v, qs, g, shuffle).1, g))[t] == multiset(QueueOf(qs, g))[t]
    ensures t in QueueOf(ShuffleCommand(v, qs, g, shuffle).1, g) <==> t in QueueOf(qs, g)
  {
    var q' := QueueOf(ShuffleCommand(v, qs, g, shuffle).1, g);
    var q := QueueOf(qs, g);
    assert multiset(q') == multiset(q);
    assert t in q' <==> t in multiset(q');
    assert t in q <==> t in multiset(q);
  }

  /** With the order lodash happens to keep unchanged, shuffle leaves the collection as it was. */
  lemma ShuffleByIdentity(v: Voice, qs: Queues, g: GuildId)
    ensures ShuffleCommand(v, qs, g, s => s).1 == qs
  {
    var q := QueueOf(qs, g);
    if Speaking(v, g) && |q| > 1 {
      assert [q[0]] + q[1..] == q;
      ReplaceWithSame(qs, g);
    }
  }

  method Shuffle(player: Player, message: Message, shuffle: seq<Track> -> seq<Track>) returns (reply: ShuffleReply)
    requires IsShuffle(shuffle)
    modifies player.store
    ensures (reply, player.store.queues) == ShuffleCommand(player.voice, old(player.store.queues), message.guildId, shuffle)
  {
    var guildVoiceConnection := message.guildId in player.voice.connections;
    if !guildVoiceConnection || !player.voice.connections[message.guildId].speaking {
      return NotPlaying;
    }
    var queue := player.store.GetQueue(message);
    if |queue| <= 1 {
      return SingleTrack;
    }
    var currentTrack := queue[0];
    var shuffledQueue := shuffle(queue[1..]);
    shuffledQueue := [currentTrack] + shuffledQueue;
    var _ := player.store.ReplaceQueue(shuffledQueue, message);
    reply := Shuffled;
  }

  // ---------------------------------------------------------------------
  // removedupes and leavecleanup
  // ---------------------------------------------------------------------

  datatype CleanReply = NoConnection | EmptyQueue | Cleaned

  /** The key `removedupes` deduplicates by. */
  function StreamKey(t: Track): string {
    t.streamURL
  }

  /**
   * removedupes: an empty queue is refused; otherwise the stored queue keeps
   * the first track of each stream URL, in order, and loses no stream URL.
   */
  function RemoveDupesCommand(qs: Queues, g: GuildId): (r: (CleanReply, Queues))
    ensures r.0 != NoConnection
    ensures r.0 == EmptyQueue <==> QueueOf(qs, g) == []
    ensures r.0 == EmptyQueue ==> r.1 == qs
    ensures r.0 == Cleaned ==> (g in r.1 &&
      KeysDistinct(QueueOf(r.1, g), StreamKey) &&
      IsSubsequence(QueueOf(r.1, g), QueueOf(qs, g)) &&
      Keys(QueueOf(r.1, g), StreamKey) == Keys(QueueOf(qs, g), StreamKey))
    ensures OthersUnchanged(qs, r.1, g)
  {
    var queue := QueueOf(qs, g);
    if |queue| <= 0 then (EmptyQueue, qs)
    else
      var filteredTracks := UniqBy(queue, StreamKey);
      UniqByDistinct(queue, StreamKey);
      UniqBySubsequence(queue, StreamKey);
      UniqByKeys(queue, StreamKey);
      (Cleaned, WithQueueReplaced(qs, g, filteredTracks))
  }

  /** A track whose stream URL no earlier track has is kept. */
  lemma RemoveDupesKeepsFirst(qs: Queues, g: GuildId, i: int)
    requires 0 <= i < |QueueOf(qs, g)|
    requires forall k :: 0 <= k < i ==> QueueOf(qs, g)[k].streamURL != QueueOf(qs, g)[i].streamURL
    ensures QueueOf(qs, g)[i] in QueueOf(RemoveDupesCommand(qs, g).1, g)
  {
    UniqByKeepsFirst(QueueOf(qs, g), StreamKey, i);
  }

  /** Running removedupes twice stores what running it once stores. */
  lemma RemoveDupesIdempotent(qs: Queues, g: GuildId)
    ensures RemoveDupesCommand(RemoveDupesCommand(qs, g).1, g).1 == RemoveDupesCommand(qs, g).1
  {
    var once := RemoveDupesCommand(qs, g).1;
    if QueueOf(qs, g) != [] {
      UniqByIdempotent(QueueOf(qs, g), StreamKey);
    }
  }

  method RemoveDupes(player: Player, message: Message) returns (reply: CleanReply)
    modifies player.store
    ensures (reply, player.store.queues) == RemoveDupesCommand(old(player.store.queues), message.guildId)
  {
    var queue := player.store.GetQueue(message);
    if |queue| <= 0 {
      return EmptyQueue;
    }
    var filteredTracks := UniqBy(queue, StreamKey);
    var _ := player.store.ReplaceQueue(filteredTracks, message);
    reply := Cleaned;
  }

  /** Whether a track's initiator is among the members of the connection's channel. */
  function InitiatorPresent(members: set<UserId>): Track -> bool {
    (t: Track) => t.initiator.authorId in members
  }

  /**
   * leavecleanup: refused without a connection or with an empty queue;
   * otherwise exactly the tracks queued by a member of the connection's
   * channel are kept, in order.
   */
  function LeaveCleanupCommand(v: Voice, qs: Queues, g: GuildId, members: set<UserId>): (r: (CleanReply, Queues))
    ensures r.0 == NoConnection <==> g !in v.connections
    ensures r.0 == EmptyQueue <==> g in v.connections && QueueOf(qs, g) == []
    ensures r.0 != Cleaned ==> r.1 == qs
    ensures r.0 == Cleaned ==> (g in r.1 &&
      IsSubsequence(QueueOf(r.1, g), QueueOf(qs, g)) && |QueueOf(r.1, g)| <= |QueueOf(qs, g)| &&
      forall t :: t in QueueOf(r.1, g) <==> t in QueueOf(qs, g) && t.initiator.authorId in members)
    ensures r.0 == Cleaned ==>
      forall t :: multiset(QueueOf(r.1, g))[t] == if t.initiator.authorId in members then multiset(QueueOf(qs, g))[t] else 0
    ensures OthersUnchanged(qs, r.1, g)
  {
    var queue := QueueOf(qs, g);
    if g !in v.connections then (NoConnection, qs)
    else if |queue| <= 0 then (EmptyQueue, qs)
    else
      var filteredQueue := Filter(queue, InitiatorPresent(members));
      FilterSubsequence(queue, InitiatorPresent(members));
      assert forall t :: t in filteredQueue <==> t in queue && t.initiator.authorId in members by {
        forall t ensures t in filteredQueue <==> t in queue && t.initiator.authorId in members {
          FilterMembers(queue, InitiatorPresent(members), t);
        }
      }
      assert forall t :: multiset(filteredQueue)[t] == if t.initiator.authorId in members then multiset(queue)[t] else 0 by {
        forall t ensures multiset(filteredQueue)[t] == if t.initiator.authorId in members then multiset(queue)[t] else 0 {
          FilterCount(queue, InitiatorPresent(members), t);
        }
      }
      (Cleaned, WithQueueReplaced(qs, g, filteredQueue))
  }

  /** When every initiator is still in the channel, leavecleanup stores the queue it found. */
  lemma NobodyLeft(v: Voice, qs: Queues, g: GuildId, members: set<UserId>)
    requires forall i :: 0 <= i < |QueueOf(qs, g)| ==> QueueOf(qs, g)[i].initiator.authorId in members
    ensures LeaveCleanupCommand(v, qs, g, members).1 == qs
  {
    var queue := QueueOf(qs, g);
    if g in v.connections && queue != [] {
      FilterAll(queue, InitiatorPresent(members));
      ReplaceWithSame(qs, g);
    }
  }

  method LeaveCleanup(player: Player, message: Message, members: set<UserId>) returns (reply: CleanReply)
    modifies player.store
    ensures (reply, player.store.queues) == LeaveCleanupCommand(player.voice, old(player.store.queues), message.guildId, members)
  {
    if message.guildId !in player.voice.connections {
      return NoConnection;
    }
    var queue := player.store.GetQueue(message);
    if |queue| <= 0 {
      return EmptyQueue;
    }
    var filteredQueue := Filter(queue, InitiatorPresent(members));
    var _ := player.store.ReplaceQueue(filteredQueue, message);
    reply := Cleaned;
  }

  // ---------------------------------------------------------------------
  // clear
  // ---------------------------------------------------------------------

  datatype ClearReply = NothingQueued | KeptCurrent | ClearedAll

  /**
   * clear: an empty queue is refused; while the connection speaks, the
   * playing head is kept and everything after it removed in one splice;
   * otherwise the guild's entry is deleted.
   */
  function ClearCommand(v: Voice, qs: Queues, g: GuildId): (r: (ClearReply, Queues))
    ensures r.0 == NothingQueued <==> QueueOf(qs, g) == []
    ensures r.0 == KeptCurrent <==> QueueOf(qs, g) != [] && Speaking(v, g)
    ensures r.0 == NothingQueued ==> r.1 == qs
    ensures r.0 == KeptCurrent ==> g in r.1 && QueueOf(r.1, g) == [QueueOf(qs, g)[0]]
    ensures r.0 == ClearedAll ==> g !in r.1 && QueueOf(r.1, g) == []
    ensures OthersUnchanged(qs, r.1, g)
  {
    var tracks := QueueOf(qs, g);
    if |tracks| <= 0 then (NothingQueued, qs)
    else if Speaking(v, g) then
      assert Splice(tracks, 1, |tracks|) == [tracks[0]] by {
        SpliceOneToEnd(tracks);
      }
      (KeptCurrent, WithTracksRemoved(qs, g, 1, |tracks|))
    else (ClearedAll, WithoutQueue(qs, g))
  }

  /** `q.splice(1, q.length)` keeps only the head: the count is clamped to the `length - 1` tracks after it. */
  lemma SpliceOneToEnd(q: seq<Track>)
    requires |q| > 0
    ensures Splice(q, 1, |q|) == [q[0]]
    ensures Spliced(q, 1, |q|) == q[1..]
  {
    assert SpliceStart(|q|, 1) == 1;
    assert SpliceCount(|q|, 1, |q|) == |q| - 1;
  }

  /** After clear, the head that was playing is the current track, or there is none. */
  lemma ClearKeepsCurrent(v: Voice, qs: Queues, g: GuildId)
    ensures CurrentTrack(ClearCommand(v, qs, g).1, g) ==
      (if Speaking(v, g) then CurrentTrack(qs, g) else None)
  {
  }

  method Clear(player: Player, message: Message) returns (reply: ClearReply)
    modifies player.store
    ensures (reply, player.store.queues) == ClearCommand(player.voice, old(player.store.queues), message.guildId)
  {
    var tracks := player.store.GetQueue(message);
    var guildVoiceConnection := message.guildId in player.voice.connections;
    if |tracks| <= 0 {
      return NothingQueued;
    }
    if guildVoiceConnection && player.voice.connections[message.guildId].speaking {
      var _ := player.store.RemoveTracks(1, |tracks|, message);
      reply := KeptCurrent;
    } else {
      player.store.RemoveQueue(message);
      reply := ClearedAll;
    }
  }
}
