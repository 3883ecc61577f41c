/**
 * The SoundCloud handler of the providers package
 * (`packages/providers/src/handlers/souncloud.handler.ts`,
 * `SoundcloudHandler`). `to(...)` turns a rejected request into an error,
 * which reads as `None`, like the bot's own handler; the routing, the kinds
 * and the search bound are the same, which `FetchTrack` states by meeting
 * the same specification.
 */
module SoundcloudProvider {
  import opened Wrappers
  import opened Tracks
  import opened Lists
  import opened SoundcloudGuard
  import SoundcloudHandler

  /** fetchTrack: resolves to what the bot's own SoundCloud handler resolves to. */
  method FetchTrack(svc: SoundcloudService, query: string, message: Message) returns (tracks: seq<Track>)
    ensures tracks == SoundcloudHandler.Resolve(svc, query, message)
  {
    tracks := [];
    var isValidURL := svc.isURL(query);

    if isValidURL {
      var resource := svc.resolve(query);
      if resource.Some? && resource.value.Object? && IsTrack(resource.value.resource) {
        var mappedTrack := ResourceTrack(resource.value.resource, message);
        tracks := tracks + [mappedTrack];
      } else if resource.Some? && resource.value.Object? && IsPlaylist(resource.value.resource) {
        tracks := SoundcloudHandler.PushAll(tracks, ResourceTracks(resource.value.resource.tracks, message));
      }
    } else {
      var trackSearchResults := svc.search(query);
      if trackSearchResults.Some? {
        tracks := SoundcloudHandler.PushAll(tracks, ResourceTracks(Take(trackSearchResults.value, SoundcloudHandler.SearchLimit), message));
      }
    }
  }
}
