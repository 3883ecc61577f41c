/**
 * The per-guild queue store of the first bot (`src/player/queue.ts`).
 *
 * Here the identity of the arrays matters: `removeFirstTrack` shifts the
 * stored array in place and hands that same array back, and `addTracks`
 * returns either its own argument or a fresh copy. Arrays are therefore
 * objects (`JsArray`), and the collection maps guild ids to array objects.
 * Its contents, read through the arrays, evolve exactly as in the current
 * store (`QueueStore`), which is what the contracts below state.
 */
module LegacyQueue {
  import opened Wrappers
  import opened Tracks
  import opened QueueStore

  /** A JavaScript `Track[]`: shared by reference and changed in place. */
  class JsArray {
    var items: seq<Track>

    constructor (items0: seq<Track>)
      ensures items == items0
    {
      items := items0;
    }

    /** `array.shift()`: remove and return the first element (`undefined` when empty). */
    method Shift() returns (first: Option<Track>)
      modifies this
      ensures old(items) == [] ==> first == None && items == []
      ensures old(items) != [] ==> first == Some(old(items)[0]) && items == old(items)[1..]
    {
      if items == [] {
        first := None;
      } else {
        first := Some(items[0]);
        items := items[1..];
      }
    }
  }

  /** The module-level `queues` collection of the first bot. */
  class LegacyGuildQueues {
    var queues: map<GuildId, JsArray>

    /** No two guilds share an array, so changing one guild's array leaves the others alone. */
    ghost predicate Valid()
      reads this
    {
      forall g, h :: g in queues && h in queues && g != h ==> queues[g] != queues[h]
    }

    /** What the collection holds, read through its arrays. */
    ghost function Contents(): Queues
      reads this, queues.Values
    {
      map g | g in queues :: queues[g].items
    }

    constructor ()
      ensures Valid() && queues == map[]
    {
      queues := map[];
    }

    /**
     * addTracks: a new guild gets a copy of `tracks` and is handed back
     * `tracks` itself; an existing guild gets a new array with the old
     * contents followed by `tracks`, and is handed back another fresh copy.
     */
    method AddTracks(message: Message, tracks: JsArray) returns (r: JsArray)
      requires Valid()
      modifies this
      ensures Valid()
      ensures Contents() == WithTracksAdded(old(Contents()), message.guildId, old(tracks.items))
      ensures message.guildId in queues && fresh(queues[message.guildId])
      ensures forall h :: h != message.guildId && h in old(queues) ==> h in queues && queues[h] == old(queues[h])
      ensures forall h :: h in queues ==> h == message.guildId || h in old(queues)
      ensures message.guildId !in old(queues) ==> r == tracks
      ensures message.guildId in old(queues) ==> fresh(r) && r != queues[message.guildId]
      ensures r.items == QueueOf(Contents(), message.guildId)
    {
      var guildId := message.guildId;
      if guildId !in queues {
        var copy := new JsArray(tracks.items);
        queues := queues[guildId := copy];
        r := tracks;
      } else {
        var guildQueue := queues[guildId];
        var stored := new JsArray(guildQueue.items + tracks.items);
        queues := queues[guildId := stored];
        r := new JsArray(guildQueue.items + tracks.items);
      }
    }

    /**
     * removeFirstTrack: an absent guild gets a fresh empty array; otherwise
     * the stored array is shifted in place, its entry deleted if it emptied,
     * and that same array is handed back.
     */
    method RemoveFirstTrack(message: Message) returns (r: JsArray)
      requires Valid()
      modifies this, if message.guildId in queues then {queues[message.guildId]} else {}
      ensures Valid()
      ensures Contents() == WithFirstRemoved(old(Contents()), message.guildId)
      ensures r.items == QueueOf(Contents(), message.guildId)
      ensures message.guildId !in old(queues) ==> fresh(r) && queues == old(queues)
      ensures message.guildId in old(queues) ==> r == old(queues[message.guildId])
      ensures message.guildId in queues ==> r == queues[message.guildId]
      ensures forall h :: h != message.guildId && h in old(queues) ==> h in queues && queues[h] == old(queues[h])
    {
      var guildId := message.guildId;
      if guildId !in queues {
        r := new JsArray([]);
      } else {
        var guildQueue := queues[guildId];
        var _ := guildQueue.Shift();
        if |guildQueue.items| == 0 {
          queues := queues - {guildId};
        } else {
          queues := queues[guildId := guildQueue];
        }
        r := guildQueue;
      }
    }

    /** removeQueue: delete an existing entry, no-op otherwise. */
    method RemoveQueue(message: Message)
      requires Valid()
      modifies this
      ensures Valid()
      ensures queues == old(queues) - {message.guildId}
      ensures Contents() == WithoutQueue(old(Contents()), message.guildId)
    {
      var guildId := message.guildId;
      if guildId in queues {
        queues := queues - {guildId};
      }
    }

    /** getQueue: the live stored array, or a fresh empty one; nothing changes. */
    method GetQueue(message: Message) returns (r: JsArray)
      ensures r.items == QueueOf(Contents(), message.guildId)
      ensures message.guildId in queues ==> r == queues[message.guildId]
    {
      var guildId := message.guildId;
      if guildId !in queues {
        r := new JsArray([]);
      } else {
        r := queues[guildId];
      }
    }
  }
}
