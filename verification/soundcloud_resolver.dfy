/**
 * The SoundCloud resolver of the current bot
 * (`packages/discord-bot/src/providers/soundcloud.ts`), the one the bot's
 * provider dispatch calls.
 *
 * A URL is resolved by kind: a user's tracks are resolved in turn from
 * `<permalink_url>/tracks` and used only when that answer is an array; a
 * track gives itself, a playlist all of its tracks in order, and anything
 * else nothing. A search keeps only the results of kind `track`, and at most
 * the first three of those.
 */
module SoundcloudResolver {
  import opened Wrappers
  import opened Tracks
  import opened Lists
  import opened SoundcloudGuard

  const SearchLimit: nat := 3

  /** `el.kind === 'track'`, as a function value for `filter`. */
  function TrackKind(): Resource -> bool {
    (r: Resource) => IsTrack(r)
  }

  /** The tracks of a user, from the answer to `<permalink_url>/tracks`. */
  function UserTracks(answer: Option<Json>, message: Message): (tracks: seq<Track>)
    ensures answer.Some? && answer.value.Array? ==> tracks == ResourceTracks(answer.value.items, message)
    ensures !(answer.Some? && answer.value.Array?) ==> tracks == []
  {
    match answer
    case Some(Array(items)) => ResourceTracks(items, message)
    case _ => []
  }

  /** The search branch: empty or failed searches give nothing; otherwise the first three track results. */
  function SearchTracks(results: Option<seq<Resource>>, message: Message): (tracks: seq<Track>)
    ensures |tracks| <= SearchLimit
  {
    match results
    case None => []
    case Some(rs) =>
      if |rs| <= 0 then []
      else ResourceTracks(Take(Filter(rs, TrackKind()), SearchLimit), message)
  }

  /** fetchHandler. */
  function FetchHandler(svc: SoundcloudService, query: string, message: Message): (tracks: seq<Track>)
    ensures svc.isURL(query) && svc.resolve(query).None? ==> tracks == []
    ensures svc.isURL(query) && IsUserBody(svc.resolve(query)) ==>
      tracks == UserTracks(svc.resolve(svc.resolve(query).value.resource.permalinkUrl + "/tracks"), message)
    ensures svc.isURL(query) && IsTrackBody(svc.resolve(query)) ==>
      tracks == [ResourceTrack(svc.resolve(query).value.resource, message)]
    ensures svc.isURL(query) && IsPlaylistBody(svc.resolve(query)) ==>
      tracks == ResourceTracks(svc.resolve(query).value.resource.tracks, message)
    ensures (svc.isURL(query) && !IsUserBody(svc.resolve(query)) && !IsTrackBody(svc.resolve(query))
             && !IsPlaylistBody(svc.resolve(query))) ==> tracks == []
    ensures !svc.isURL(query) ==> tracks == SearchTracks(svc.search(query), message)
  {
    if svc.isURL(query) then
      var resolved := svc.resolve(query);
      if resolved.None? then []
      else if IsUserBody(resolved) then
        UserTracks(svc.resolve(resolved.value.resource.permalinkUrl + "/tracks"), message)
      else if IsTrackBody(resolved) then [ResourceTrack(resolved.value.resource, message)]
      else if IsPlaylistBody(resolved) then ResourceTracks(resolved.value.resource.tracks, message)
      else []
    else SearchTracks(svc.search(query), message)
  }

  /**
   * A search keeps at most three results, each the mapping of a result of
   * kind `track`; results of other kinds never reach the queue.
   */
  lemma SearchKeepsTrackKinds(rs: seq<Resource>, message: Message, j: int)
    requires 0 <= j < |SearchTracks(Some(rs), message)|
    ensures exists r :: r in rs && IsTrack(r) && SearchTracks(Some(rs), message)[j] == ResourceTrack(r, message)
  {
    var kept := Take(Filter(rs, TrackKind()), SearchLimit);
    var r := kept[j];
    assert r in Filter(rs, TrackKind());
    FilterMembers(rs, TrackKind(), r);
  }

  /** When every result is a track, the first three are kept, in order. */
  lemma SearchAllTracks(rs: seq<Resource>, message: Message)
    requires |rs| > 0
    requires forall i :: 0 <= i < |rs| ==> IsTrack(rs[i])
    ensures SearchTracks(Some(rs), message) == ResourceTracks(Take(rs, SearchLimit), message)
  {
    FilterAll(rs, TrackKind());
  }

  /** Search results of other kinds only: nothing is queued. */
  lemma SearchNoTracks(rs: seq<Resource>, message: Message)
    requires forall i :: 0 <= i < |rs| ==> !IsTrack(rs[i])
    ensures SearchTracks(Some(rs), message) == []
  {
    if |Filter(rs, TrackKind())| > 0 {
      var r := Filter(rs, TrackKind())[0];
      FilterMembers(rs, TrackKind(), r);
    }
  }
}
