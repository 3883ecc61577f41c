/**
 * The per-guild queue store of the current bot
 * (`packages/discord-bot/src/player/queue.ts`): a module-level collection from
 * guild id to the list of queued tracks, the head being the track playing.
 *
 * The collection is the field `queues` of the class `GuildQueues`; each method
 * is proved against a transition function on the map, and each transition
 * function states, through the observers `QueueOf` and `CurrentTrack`, what it
 * does to the guild it names and that every other guild is unchanged.
 */
module QueueStore {
  import opened Wrappers
  import opened Tracks

  type Queues = map<GuildId, seq<Track>>

  /** `queues.get(g) || []`: an absent entry reads as the empty queue. */
  function QueueOf(qs: Queues, g: GuildId): seq<Track> {
    if g in qs then qs[g] else []
  }

  /** `queue ? queue[0] : null`; an empty stored queue has no head either (`undefined`). */
  function CurrentTrack(qs: Queues, g: GuildId): (t: Option<Track>)
    ensures t.Some? <==> |QueueOf(qs, g)| > 0
    ensures t.Some? ==> t.value == QueueOf(qs, g)[0]
  {
    if g in qs && |qs[g]| > 0 then Some(qs[g][0]) else None
  }

  // ---------------------------------------------------------------------
  // Array#splice(start, deleteCount)
  // ---------------------------------------------------------------------

  /** The index splice starts at: a negative start counts from the end; both are clamped to the array. */
  function SpliceStart(len: nat, start: int): (k: nat)
    ensures k <= len
    ensures 0 <= start <= len ==> k == start
    ensures -(len as int) <= start < 0 ==> k == len + start
  {
    if start < 0 then (if len + start < 0 then 0 else len + start)
    else if start > len then len
    else start
  }

  /** How many elements splice removes from index `k`: `deleteCount` clamped to `0..len-k`. */
  function SpliceCount(len: nat, k: nat, count: int): (d: nat)
    requires k <= len
    ensures d <= len - k
    ensures 0 <= count <= len - k ==> d == count
  {
    if count < 0 then 0 else if count > len - k then len - k else count
  }

  /** What `q.splice(start, count)` removes. */
  function Spliced<T>(q: seq<T>, start: int, count: int): seq<T> {
    var k := SpliceStart(|q|, start);
    q[k..k + SpliceCount(|q|, k, count)]
  }

  /** What `q` holds after `q.splice(start, count)`. */
  function Splice<T>(q: seq<T>, start: int, count: int): (r: seq<T>)
    ensures |r| == |q| - |Spliced(q, start, count)|
  {
    var k := SpliceStart(|q|, start);
    q[..k] + q[k + SpliceCount(|q|, k, count)..]
  }

  /** For an in-range start and count, splice keeps `q[..start] + q[start + count..]`. */
  lemma SpliceInRange<T>(q: seq<T>, start: nat, count: nat)
    requires start + count <= |q|
    ensures Splice(q, start, count) == q[..start] + q[start + count..]
    ensures Spliced(q, start, count) == q[start..start + count]
  {
  }

  /** Putting the removed elements back where they were restores the array. */
  lemma SpliceRestores<T>(q: seq<T>, start: int, count: int)
    ensures var k := SpliceStart(|q|, start);
      Splice(q, start, count)[..k] + Spliced(q, start, count) + Splice(q, start, count)[k..] == q
  {
    var k := SpliceStart(|q|, start);
    var d := SpliceCount(|q|, k, count);
    var r := Splice(q, start, count);
    assert r[..k] == q[..k];
    assert r[k..] == q[k + d..];
    assert q[..k] + q[k..k + d] + q[k + d..] == q;
  }

  // ---------------------------------------------------------------------
  // Transitions of the collection
  // ---------------------------------------------------------------------

  /** addTracks: append to the guild's queue, creating it (with a copy of `tracks`) when absent. */
  function WithTracksAdded(qs: Queues, g: GuildId, tracks: seq<Track>): (r: Queues)
    ensures g in r
    ensures QueueOf(r, g) == QueueOf(qs, g) + tracks
    ensures forall h :: h != g ==> (h in r <==> h in qs) && QueueOf(r, h) == QueueOf(qs, h)
  {
    if g !in qs then qs[g := tracks] else qs[g := qs[g] + tracks]
  }

  /**
   * removeFirstTrack: drop the head of an existing queue and delete the entry
   * once it is empty; an absent guild is left alone.
   */
  function WithFirstRemoved(qs: Queues, g: GuildId): (r: Queues)
    ensures QueueOf(r, g) == (if |QueueOf(qs, g)| == 0 then [] else QueueOf(qs, g)[1..])
    ensures g in r <==> |QueueOf(qs, g)| > 1
    ensures forall h :: h != g ==> (h in r <==> h in qs) && QueueOf(r, h) == QueueOf(qs, h)
  {
    if g in qs then
      var rest := if |qs[g]| == 0 then [] else qs[g][1..];
      if |rest| == 0 then qs - {g} else qs[g := rest]
    else qs
  }

  /** removeTracks: splice the guild's queue; the entry stays even when it empties. */
  function WithTracksRemoved(qs: Queues, g: GuildId, start: int, count: int): (r: Queues)
    ensures g in r <==> g in qs
    ensures g in qs ==> QueueOf(r, g) == Splice(qs[g], start, count)
    ensures g !in qs ==> r == qs
    ensures forall h :: h != g ==> (h in r <==> h in qs) && QueueOf(r, h) == QueueOf(qs, h)
  {
    if g in qs then qs[g := Splice(qs[g], start, count)] else qs
  }

  /** removeQueue: forget the guild's entry. */
  function WithoutQueue(qs: Queues, g: GuildId): (r: Queues)
    ensures g !in r && QueueOf(r, g) == [] && CurrentTrack(r, g) == None
    ensures forall h :: h != g ==> (h in r <==> h in qs) && QueueOf(r, h) == QueueOf(qs, h)
  {
    if g in qs then qs - {g} else qs
  }

  /** replaceQueue: overwrite an existing entry; never create one. */
  function WithQueueReplaced(qs: Queues, g: GuildId, newQueue: seq<Track>): (r: Queues)
    ensures g in r <==> g in qs
    ensures QueueOf(r, g) == if g in qs then newQueue else []
    ensures forall h :: h != g ==> (h in r <==> h in qs) && QueueOf(r, h) == QueueOf(qs, h)
  {
    if g in qs then qs[g := newQueue] else qs
  }

  /** Replacing an existing queue by itself changes nothing; on an absent guild it is a no-op. */
  lemma ReplaceWithSame(qs: Queues, g: GuildId)
    ensures WithQueueReplaced(qs, g, QueueOf(qs, g)) == qs
  {
  }

  /**
   * Popping the head once per queued track (and at least once) empties the
   * queue and deletes its entry, even an entry holding an empty queue.
   */
  lemma {:induction false} DrainDeletes(qs: Queues, g: GuildId, n: nat)
    requires n >= |QueueOf(qs, g)| && (n > 0 || g !in qs)
    ensures g !in Drain(qs, g, n) && QueueOf(Drain(qs, g, n), g) == []
    ensures forall h :: h != g ==> QueueOf(Drain(qs, g, n), h) == QueueOf(qs, h)
    decreases n
  {
    if n > 0 {
      DrainDeletes(WithFirstRemoved(qs, g), g, n - 1);
    }
  }

  /** `n` successive removeFirstTrack calls. */
  function Drain(qs: Queues, g: GuildId, n: nat): Queues
    decreases n
  {
    if n == 0 then qs else Drain(WithFirstRemoved(qs, g), g, n - 1)
  }

  // ---------------------------------------------------------------------
  // The collection itself
  // ---------------------------------------------------------------------

  /** The module-level `queues` collection. */
  class GuildQueues {
    var queues: Queues

    constructor ()
      ensures queues == map[]
    {
      queues := map[];
    }

    method AddTracks(tracks: seq<Track>, message: Message) returns (r: seq<Track>)
      modifies this
      ensures queues == WithTracksAdded(old(queues), message.guildId, tracks)
      ensures r == QueueOf(queues, message.guildId)
      ensures |r| == |QueueOf(old(queues), message.guildId)| + |tracks|
    {
      var guildId := message.guildId;
      if guildId !in queues {
        queues := queues[guildId := tracks];
      } else {
        var queue := queues[guildId];
        queues := queues[guildId := queue + tracks];
      }
      r := QueueOf(queues, guildId);
    }

    method RemoveFirstTrack(message: Message) returns (r: seq<Track>)
      modifies this
      ensures queues == WithFirstRemoved(old(queues), message.guildId)
      ensures r == QueueOf(queues, message.guildId)
    {
      var guildId := message.guildId;
      if guildId in queues {
        var queue := queues[guildId];
        if |queue| > 0 {
          queue := queue[1..];
        }
        if |queue| == 0 {
          queues := queues - {guildId};
        } else {
          queues := queues[guildId := queue];
        }
      }
      r := QueueOf(queues, guildId);
    }

    method RemoveTracks(startIndex: int, deleteCount: int, message: Message) returns (r: seq<Track>)
      modifies this
      ensures queues == WithTracksRemoved(old(queues), message.guildId, startIndex, deleteCount)
      ensures r == QueueOf(queues, message.guildId)
    {
      var guildId := message.guildId;
      if guildId in queues {
        var queue := Splice(queues[guildId], startIndex, deleteCount);
        queues := queues[guildId := queue];
      }
      r := QueueOf(queues, guildId);
    }

    method RemoveQueue(message: Message)
      modifies this
      ensures queues == WithoutQueue(old(queues), message.guildId)
    {
      var guildId := message.guildId;
      if guildId in queues {
        queues := queues - {guildId};
      }
    }

    method GetQueue(message: Message) returns (r: seq<Track>)
      ensures r == QueueOf(queues, message.guildId)
      ensures message.guildId !in queues ==> r == []
    {
      r := if message.guildId in queues then queues[message.guildId] else [];
    }

    method ReplaceQueue(newQueue: seq<Track>, message: Message) returns (r: seq<Track>)
      modifies this
      ensures queues == WithQueueReplaced(old(queues), message.guildId, newQueue)
      ensures r == QueueOf(queues, message.guildId)
    {
      var guildId := message.guildId;
      if guildId in queues {
        queues := queues[guildId := newQueue];
      }
      r := QueueOf(queues, guildId);
    }

    method GetCurrentTrack(message: Message) returns (t: Option<Track>)
      ensures t == CurrentTrack(queues, message.guildId)
      ensures t.Some? ==> message.guildId in queues && t.value == queues[message.guildId][0]
    {
      if message.guildId in queues {
        var queue := queues[message.guildId];
        t := if |queue| > 0 then Some(queue[0]) else None;
      } else {
        t := None;
      }
    }
  }
}
