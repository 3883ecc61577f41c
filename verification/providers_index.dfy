/**
 * The entry points of the providers package (`packages/providers/src/index.ts`).
 *
 * `fetchMetadata` dispatches to the provider's handler; `handleProvider`
 * captures a rejection with `to(...)`, sends one failure notification when
 * the fetch failed or found nothing, and always resolves to a list (`[]`
 * instead of `undefined`). `handleStreamProvider` takes the stream from the
 * YouTube handler and the client-id URL from the SoundCloud handler.
 */
module ProvidersIndex {
  import opened Wrappers
  import opened Tracks
  import Lists
  import YoutubeApi
  import YoutubeProvider
  import SoundcloudGuard
  import SoundcloudHandler
  import Dispatch
  import Time

  /** What `handleProvider` resolves to, and whether it sent the failure notification. */
  datatype Handled = Handled(tracks: seq<Track>, notifiedFailure: bool)

  /** fetchMetadata: the tagged provider's `fetchTrack`, so every track carries the tag and the message. */
  function FetchMetadata(svcs: Dispatch.Services, provider: Provider, query: string, message: Message): (tracks: seq<Track>)
    ensures forall i :: 0 <= i < |tracks| ==> tracks[i].provider == provider && tracks[i].initiator == message
  {
    match provider
    case YouTube =>
      var r := YoutubeProvider.Resolve(svcs.youtube, query, message);
      assert forall i :: 0 <= i < |r| ==> r[i].provider == YouTube && r[i].initiator == message by {
        forall i | 0 <= i < |r| ensures r[i].provider == YouTube && r[i].initiator == message {
          YoutubeTrack(svcs.youtube, query, message, i);
        }
      }
      r
    case SoundCloud => SoundcloudHandler.Resolve(svcs.soundcloud, query, message)
  }

  /** Every track of the package's YouTube handler is a YouTube track initiated by the message. */
  lemma YoutubeTrack(svc: YoutubeApi.YoutubeService, query: string, message: Message, j: int)
    requires 0 <= j < |YoutubeProvider.Resolve(svc, query, message)|
    ensures YoutubeProvider.Resolve(svc, query, message)[j].provider == YouTube
    ensures YoutubeProvider.Resolve(svc, query, message)[j].initiator == message
  {
    var toTrack := (v: YoutubeApi.VideoInfo) => YoutubeApi.VideoTrack(v, message);
    var keys: seq<string>;
    if svc.isURL(query) {
      if svc.isVideo(query) && !YoutubeApi.HasListParam(svc, query) {
        keys := [query];
      } else {
        keys := YoutubeApi.WatchURLs(svc.playlistItems(svc.listParam(query)).value);
      }
    } else {
      keys := Lists.Take(svc.searchResults(query).value, YoutubeApi.SearchLimit);
    }
    assert YoutubeProvider.Resolve(svc, query, message) == YoutubeApi.Lookups(svc.basicInfo, toTrack, keys);
    YoutubeApi.LookupsFromKeys(svc.basicInfo, toTrack, keys, j);
  }

  /** handleProvider, given what the fetch settled to (`None` for a rejection). */
  function HandleProvider(fetched: Option<seq<Track>>): (h: Handled)
    ensures fetched.Some? ==> h.tracks == fetched.value
    ensures fetched.None? ==> h.tracks == []
    ensures h.notifiedFailure <==> h.tracks == []
  {
    var failed := fetched.None? || |fetched.value| <= 0;
    Handled(fetched.GetOr([]), failed)
  }

  /** handleProvider over the package's handlers, whose answers are taken to be well formed. */
  function HandleProviderWith(svcs: Dispatch.Services, provider: Provider, query: string, message: Message): Handled {
    HandleProvider(Some(FetchMetadata(svcs, provider, query, message)))
  }

  /** handleStreamProvider. */
  function HandleStreamProvider(provider: Provider, track: Track, token: string): StreamProvider {
    match provider
    case YouTube => StreamProvider(Some(Readable(track.streamURL)), None)
    case SoundCloud => StreamProvider(None, Some(SoundcloudGuard.ClientStreamURL(track, token)))
  }

  /** The package feeds a track to the voice connection as the bot's own dispatch does. */
  lemma SameStreamChoice(provider: Provider, track: Track, token: string)
    ensures HandleStreamProvider(provider, track, token) == Dispatch.HandleStreamProvider(provider, track, token)
  {
  }

  /**
   * Unlike the bot's dispatch, the package's `handleProvider` never resolves
   * to `undefined`: a rejection and an empty result both give `[]`, with the
   * one failure notification.
   */
  lemma NeverUndefined(fetched: Option<seq<Track>>, now: Time.ClockSecond)
    ensures HandleProvider(fetched).tracks == (if fetched.Some? then fetched.value else [])
    ensures Dispatch.HandleProvider(fetched, now).tracks.None? ==> HandleProvider(fetched) == Handled([], true)
    ensures HandleProvider(fetched).notifiedFailure <==>
      Dispatch.HandleProvider(fetched, now).notice == Dispatch.FetchFailed ||
      Dispatch.HandleProvider(fetched, now).notice == Dispatch.NothingQueued
  {
  }
}
