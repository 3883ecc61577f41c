/**
 * The queue controller of the REST API
 * (`packages/rest-api/src/server/queue/queue.controller.ts`): a guild's
 * stored queue is loaded by the guild's Discord id, and `update` empties
 * its track list in place and pushes the new tracks into it.
 *
 * The queue preloaded by `load` (`req.queue`) is a nullable
 * `QueueDocument`. Saving, and the reply that follows it, is the
 * `SavedQueue` reply.
 */
module QueueController {
  import opened Wrappers
  import opened QueueService
  import Pagination

  const NotFound: nat := 404

  /** What a handler answers. */
  datatype Reply =
    | SavedQueue                                         // the queue document is saved and sent back
    | QueueJson(guildId: string, tracks: seq<QueueTrack>)
    | StatusOnly(code: nat)                              // `res.sendStatus(code)`

  /** `array.splice(start, deleteCount)`: the array without the `deleteCount` elements from `start`. */
  function Spliced<T>(s: seq<T>, start: nat, deleteCount: nat): (r: seq<T>)
    ensures |r| == if start >= |s| then |s| else if start + deleteCount >= |s| then start else |s| - deleteCount
    ensures forall i :: 0 <= i < start && i < |s| ==> r[i] == s[i]
    ensures start + deleteCount <= |s| ==> forall i :: start <= i < |r| ==> r[i] == s[i + deleteCount]
  {
    if start >= |s| then s
    else if start + deleteCount >= |s| then s[..start]
    else s[..start] + s[start + deleteCount..]
  }

  /** A stored queue. */
  class QueueDocument {
    const id: string
    const guildId: string
    var tracks: seq<QueueTrack>

    /** `create`: a queue for the guild, with the tracks of the body or none. */
    constructor Create(id: string, guildId: string, tracks: Option<seq<QueueTrack>>)
      ensures this.id == id && this.guildId == guildId && this.tracks == tracks.GetOr([])
    {
      this.id := id;
      this.guildId := guildId;
      this.tracks := tracks.GetOr([]);
    }
  }

  /** `req.queue && req.queue._id`. */
  predicate HasQueue(queue: QueueDocument?) {
    queue != null && queue.id != ""
  }

  /**
   * `load`: `QueueModel.findOne({ guildID })`, the first stored queue of the
   * guild; `req.queue` is set only when one is found.
   */
  function Load(queues: seq<QueueDocument>, guildId: string): (r: QueueDocument?)
    reads queues
    ensures r == null <==> forall i :: 0 <= i < |queues| ==> queues[i].guildId != guildId
    ensures r != null ==> r in queues && r.guildId == guildId
    ensures queues != [] && queues[0].guildId == guildId ==> r == queues[0]
    decreases |queues|
  {
    if queues == [] then null
    else if queues[0].guildId == guildId then queues[0]
    else Load(queues[1..], guildId)
  }

  /** `get`: the loaded queue, or the status 404. */
  function Get(queue: QueueDocument?): (r: Reply)
    reads queue
    ensures r.QueueJson? <==> HasQueue(queue)
    ensures r.QueueJson? ==> r.guildId == queue.guildId && r.tracks == queue.tracks
    ensures !r.QueueJson? ==> r == StatusOnly(NotFound)
  {
    if queue != null && queue.id != "" then QueueJson(queue.guildId, queue.tracks) else StatusOnly(NotFound)
  }

  /** `getAll`: the defaults are applied as the pagination object is built, then `max` overwrites it. */
  method GetAll<T>(docs: seq<T>, q: Pagination.Query, count: nat) returns (r: Option<seq<T>>)
    ensures r == Pagination.Page(docs, Pagination.QueueWindow(q, count))
  {
    var limit := Pagination.OrElse(Pagination.ParseParam(q.limit), 100);
    var skip := Pagination.OrElse(Pagination.ParseParam(q.skip), 0);
    var max := q.max == Some("true");
    if max {
      limit := count;
      skip := 0;
    }
    r := Pagination.Page(docs, Pagination.Window(limit, skip));
  }

  /** `update`: the stored tracks are spliced out, then the body's tracks pushed, so the queue holds exactly them. */
  method Update(queue: QueueDocument?, tracks: seq<QueueTrack>) returns (reply: Reply)
    modifies queue
    ensures !HasQueue(queue) ==> reply == StatusOnly(NotFound)
    ensures HasQueue(queue) ==> reply == SavedQueue && queue.tracks == tracks
  {
    if queue == null || queue.id == "" {
      return StatusOnly(NotFound);
    }
    queue.tracks := Spliced(queue.tracks, 0, |queue.tracks|);
    queue.tracks := queue.tracks + tracks;
    reply := SavedQueue;
  }
}
