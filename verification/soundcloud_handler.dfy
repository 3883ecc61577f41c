/**
 * The SoundCloud handler of the current bot
 * (`packages/discord-bot/src/providers/soundcloud/soundcloud.handler.ts`).
 *
 * A URL is resolved: a track gives its track, a playlist all of its tracks
 * in order, anything else (a user, an unresolved URL) nothing. A non-URL is
 * searched and the first three results are mapped, whatever their kind. The
 * mapped tracks are pushed one by one into the result; the method is proved
 * equal to `Resolve`.
 */
module SoundcloudHandler {
  import opened Wrappers
  import opened Tracks
  import opened Lists
  import opened SoundcloudGuard

  /** At most this many search results are mapped (`slice(0, 3)`). */
  const SearchLimit: nat := 3

  /** What `fetchHandler` resolves to. */
  function Resolve(svc: SoundcloudService, query: string, message: Message): (tracks: seq<Track>)
    ensures svc.isURL(query) && IsTrackBody(svc.resolve(query)) ==>
      tracks == [ResourceTrack(svc.resolve(query).value.resource, message)]
    ensures svc.isURL(query) && IsPlaylistBody(svc.resolve(query)) ==>
      tracks == ResourceTracks(svc.resolve(query).value.resource.tracks, message)
    ensures svc.isURL(query) && !IsTrackBody(svc.resolve(query)) && !IsPlaylistBody(svc.resolve(query)) ==> tracks == []
    ensures !svc.isURL(query) ==> |tracks| <= SearchLimit
    ensures !svc.isURL(query) && svc.search(query).Some? ==>
      var results := svc.search(query).value;
      |tracks| == (if |results| < SearchLimit then |results| else SearchLimit) &&
      forall i :: 0 <= i < |tracks| ==> tracks[i] == ResourceTrack(results[i], message)
    ensures !svc.isURL(query) && svc.search(query).None? ==> tracks == []
  {
    if svc.isURL(query) then
      var resource := svc.resolve(query);
      if IsTrackBody(resource) then [ResourceTrack(resource.value.resource, message)]
      else if IsPlaylistBody(resource) then ResourceTracks(resource.value.resource.tracks, message)
      else []
    else
      match svc.search(query)
      case Some(results) => ResourceTracks(Take(results, SearchLimit), message)
      case None => []
  }

  /** Pushes the mapped tracks one by one: `mapped.forEach(track => tracks.push(track))`. */
  method PushAll(tracks: seq<Track>, mapped: seq<Track>) returns (r: seq<Track>)
    ensures r == tracks + mapped
  {
    r := tracks;
    for i := 0 to |mapped|
      invariant r == tracks + mapped[..i]
    {
      r := r + [mapped[i]];
      assert mapped[..i + 1] == mapped[..i] + [mapped[i]];
    }
    assert mapped[..|mapped|] == mapped;
  }

  /** fetchHandler: the pushes accumulate exactly what `Resolve` describes. */
  method FetchHandler(svc: SoundcloudService, query: string, message: Message) returns (tracks: seq<Track>)
    ensures tracks == Resolve(svc, query, message)
  {
    tracks := [];
    var isURL := svc.isURL(query);

    if isURL {
      var resource := svc.resolve(query);
      if IsTrackBody(resource) {
        tracks := tracks + [ResourceTrack(resource.value.resource, message)];
      } else if IsPlaylistBody(resource) {
        tracks := PushAll(tracks, ResourceTracks(resource.value.resource.tracks, message));
      }
    } else {
      var trackSearchResults := svc.search(query);
      if trackSearchResults.Some? {
        tracks := PushAll(tracks, ResourceTracks(Take(trackSearchResults.value, SearchLimit), message));
      }
    }
  }
}
