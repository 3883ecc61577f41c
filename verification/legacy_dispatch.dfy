/**
 * Provider dispatch of the first bot (`src/providers/handler.ts`).
 *
 * As in the current bot, one notification is chosen by the number of fetched
 * tracks and the list is passed through; in addition a one-element list
 * whose element is missing gets an error notification instead of the track
 * embed. Because the first bot's YouTube handler can throw synchronously
 * (a `list=` query that is not a URL), the dispatch can throw before any
 * promise exists: `HandleProviderWith` is then `None`.
 */
module LegacyDispatch {
  import opened Wrappers
  import opened Tracks
  import opened Text
  import YoutubeApi
  import SoundcloudGuard
  import LegacyYoutube
  import LegacySoundcloud
  import LegacyUtils
  import Dispatch
  import Time

  /** The notification the first bot's `handleProvider` sends. */
  datatype Notice =
    | NothingQueued
    | MissingTrack                                    // one element, but nothing in it
    | QueuedTrack(title: string, line: string, thumbnail: string, url: string)
    | QueuedPlaylist(name: string, value: string)
    | FetchFailed

  datatype Handled = Handled(tracks: Option<seq<Option<Track>>>, notice: Notice)

  /** handleStreamProvider of the first bot. */
  function HandleStreamProvider(provider: Provider, track: Track, token: string): StreamProvider {
    match provider
    case YouTube => StreamProvider(Some(Readable(track.streamURL)), None)
    case SoundCloud => StreamProvider(None, Some(track.streamURL + "?client_id=" + token))
  }

  /** Both bots feed a track to the voice connection the same way. */
  lemma SameStreamChoice(provider: Provider, track: Track, token: string)
    ensures HandleStreamProvider(provider, track, token) == Dispatch.HandleStreamProvider(provider, track, token)
  {
  }

  /** The fetched tracks as the elements of a JavaScript array, all present. */
  function Present(ts: seq<Track>): (r: seq<Option<Track>>)
    ensures |r| == |ts|
    ensures forall i :: 0 <= i < |ts| ==> r[i] == Some(ts[i])
  {
    seq(|ts|, i requires 0 <= i < |ts| => Some(ts[i]))
  }

  /** switchFetchMetadataProvider; `None` when the YouTube handler throws synchronously. */
  function SwitchFetchMetadataProvider(svcs: Dispatch.Services, provider: Provider, query: string, message: Message): (r: Option<seq<Track>>)
    ensures r.None? <==> provider == YouTube && LegacyYoutube.IsPlaylist(query) && !svcs.youtube.isURL(query)
    ensures provider == SoundCloud ==> r == Some(LegacySoundcloud.FetchHandler(svcs.soundcloud, query, message))
  {
    match provider
    case YouTube => LegacyYoutube.FetchHandler(svcs.youtube, query, message)
    case SoundCloud => Some(LegacySoundcloud.FetchHandler(svcs.soundcloud, query, message))
  }

  /** The single-track line: the `mm:ss` duration, an em dash, and who added it. */
  function TrackAddedLine(t: Track): string {
    LegacyUtils.SecondsToHHMMSS(t.duration) + " \U{2014} Added by " + t.initiator.username
  }

  /** handleProvider, given what the fetch settled to (`None` for a rejection). */
  function HandleProvider(fetched: Option<seq<Option<Track>>>): (h: Handled)
    ensures h.tracks == fetched
    ensures fetched.None? <==> h.notice == FetchFailed
    ensures fetched.Some? && |fetched.value| == 0 <==> h.notice == NothingQueued
    ensures fetched.Some? && |fetched.value| == 1 && fetched.value[0].None? <==> h.notice == MissingTrack
    ensures fetched.Some? && |fetched.value| == 1 && fetched.value[0].Some? <==> h.notice.QueuedTrack?
    ensures fetched.Some? && |fetched.value| > 1 <==> h.notice.QueuedPlaylist?
    ensures h.notice.QueuedTrack? ==>
      var t := fetched.value[0].value;
      h.notice == QueuedTrack(t.title, TrackAddedLine(t), t.thumbnailURL, t.url)
  {
    match fetched
    case None => Handled(None, FetchFailed)
    case Some(response) =>
      if |response| <= 0 then Handled(fetched, NothingQueued)
      else if |response| == 1 then
        match response[0]
        case None => Handled(fetched, MissingTrack)
        case Some(t) => Handled(fetched, QueuedTrack(t.title, TrackAddedLine(t), t.thumbnailURL, t.url))
      else
        Handled(fetched, QueuedPlaylist("Added " + NatToString(|response|) + " tracks into the queue",
                                        "If this is an error, you clear the queue"))
  }

  /** handleProvider over the first bot's handlers; `None` when it throws synchronously. */
  function HandleProviderWith(svcs: Dispatch.Services, provider: Provider, query: string, message: Message): Option<Handled> {
    match SwitchFetchMetadataProvider(svcs, provider, query, message)
    case None => None
    case Some(ts) => Some(HandleProvider(Some(Present(ts))))
  }

  /**
   * The handlers never leave an element missing, so the missing-track
   * notification is never sent, and the fetch never rejects.
   */
  lemma NoMissingTrack(svcs: Dispatch.Services, provider: Provider, query: string, message: Message)
    requires HandleProviderWith(svcs, provider, query, message).Some?
    ensures HandleProviderWith(svcs, provider, query, message).value.notice != MissingTrack
    ensures HandleProviderWith(svcs, provider, query, message).value.notice != FetchFailed
  {
    var ts := SwitchFetchMetadataProvider(svcs, provider, query, message).value;
    if |ts| == 1 {
      assert Present(ts)[0] == Some(ts[0]);
    }
  }

  /** The two bots send the same kind of notification for the same fetched list. */
  lemma SameNoticeKind(ts: seq<Track>, now: Time.ClockSecond)
    ensures HandleProvider(Some(Present(ts))).notice.NothingQueued? == Dispatch.HandleProvider(Some(ts), now).notice.NothingQueued?
    ensures HandleProvider(Some(Present(ts))).notice.QueuedTrack? == Dispatch.HandleProvider(Some(ts), now).notice.QueuedTrack?
    ensures HandleProvider(Some(Present(ts))).notice.QueuedPlaylist? == Dispatch.HandleProvider(Some(ts), now).notice.QueuedPlaylist?
  {
    if |ts| == 1 {
      assert Present(ts)[0] == Some(ts[0]);
    }
  }
}
