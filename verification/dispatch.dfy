/**
 * Provider dispatch of the current bot (`packages/discord-bot/src/providers/handler.ts`).
 *
 * The fetch goes to the provider's resolver (the YouTube handler or the
 * SoundCloud resolver). `handleProvider` then sends exactly one
 * notification chosen by the number of fetched tracks and resolves to the
 * fetched list unchanged; a rejected fetch is caught, reported, and resolves
 * to `undefined`. Notifications are returned as values rather than sent.
 * `now` is the wall-clock second the duration formatter's Moment starts at.
 */
module Dispatch {
  import opened Wrappers
  import opened Tracks
  import opened Text
  import YoutubeApi
  import YoutubeHandler
  import SoundcloudGuard
  import SoundcloudResolver
  import Lists
  import Time
  import Utils

  /** The oracles of both providers. */
  datatype Services = Services(youtube: YoutubeApi.YoutubeService, soundcloud: SoundcloudGuard.SoundcloudService)

  /** The one notification `handleProvider` sends. */
  datatype Notice =
    | NothingQueued                                   // no track found
    | QueuedTrack(title: string, line: string, thumbnail: string, url: string)
    | QueuedPlaylist(description: string)
    | FetchFailed                                     // the fetch rejected

  /** What `handleProvider` resolves to (`None` is `undefined`), with the notification it sent. */
  datatype Handled = Handled(tracks: Option<seq<Track>>, notice: Notice)

  /**
   * handleStreamProvider: a YouTube track is streamed from its stream URL; a
   * SoundCloud track is played from its stream URL with the client id.
   */
  function HandleStreamProvider(provider: Provider, track: Track, token: string): (sp: StreamProvider)
    ensures sp.stream.Some? <==> provider == YouTube
    ensures sp.arbitraryURL.Some? <==> provider == SoundCloud
    ensures sp.stream.Some? ==> sp.stream.value.source == track.streamURL
    ensures sp.arbitraryURL.Some? ==>
      StartsWith(sp.arbitraryURL.value, track.streamURL) &&
      sp.arbitraryURL.value[|track.streamURL|..] == "?client_id=" + token
  {
    match provider
    case YouTube => StreamProvider(Some(YoutubeApi.ReadableStream(track)), None)
    case SoundCloud => StreamProvider(None, Some(SoundcloudGuard.ClientStreamURL(track, token)))
  }

  /** _switchFetchMetadataProvider: the tracks come from the tagged provider, initiated by the message. */
  function SwitchFetchMetadataProvider(svcs: Services, provider: Provider, query: string, message: Message): (tracks: seq<Track>)
    ensures forall i :: 0 <= i < |tracks| ==> tracks[i].provider == provider && tracks[i].initiator == message
  {
    match provider
    case YouTube =>
      var r := YoutubeHandler.Resolve(svcs.youtube, query, message);
      assert forall i :: 0 <= i < |r| ==> r[i].provider == YouTube && r[i].initiator == message by {
        forall i | 0 <= i < |r| ensures r[i].provider == YouTube && r[i].initiator == message {
          YoutubeHandler.ResolvedTracksAreYoutube(svcs.youtube, query, message, i);
        }
      }
      r
    case SoundCloud =>
      var r := SoundcloudResolver.FetchHandler(svcs.soundcloud, query, message);
      assert forall i :: 0 <= i < |r| ==> r[i].provider == SoundCloud && r[i].initiator == message by {
        forall i | 0 <= i < |r| ensures r[i].provider == SoundCloud && r[i].initiator == message {
          ResolverTrack(svcs.soundcloud, query, message, i);
        }
      }
      r
  }

  /** Every track of the SoundCloud resolver is a SoundCloud track initiated by the message. */
  lemma ResolverTrack(svc: SoundcloudGuard.SoundcloudService, query: string, message: Message, i: int)
    requires 0 <= i < |SoundcloudResolver.FetchHandler(svc, query, message)|
    ensures SoundcloudResolver.FetchHandler(svc, query, message)[i].provider == SoundCloud
    ensures SoundcloudResolver.FetchHandler(svc, query, message)[i].initiator == message
  {
    var r := SoundcloudResolver.FetchHandler(svc, query, message);
    if !svc.isURL(query) {
      var results := svc.search(query);
      if results.Some? && |results.value| > 0 {
        var kept := Lists.Take(Lists.Filter(results.value, SoundcloudResolver.TrackKind()), SoundcloudResolver.SearchLimit);
        assert r == SoundcloudGuard.ResourceTracks(kept, message);
      }
    }
  }

  /** _formatTrackAddedMessage: the formatted duration, then who added the track. */
  function TrackAddedMessage(duration: string, initiator: Message, now: Time.ClockSecond): string {
    Utils.SecondsToHHMMSS(duration, now) + " - Added by " + initiator.username
  }

  /** The playlist notification's text. */
  function PlaylistDescription(count: nat): string {
    "Added " + NatToString(count) + " tracks into the queue"
  }

  /**
   * handleProvider, given what the fetch settled to (`None` for a
   * rejection): the list is passed through unchanged, and one notification
   * is chosen by its length.
   */
  function HandleProvider(fetched: Option<seq<Track>>, now: Time.ClockSecond): (h: Handled)
    ensures h.tracks == fetched
    ensures fetched.None? <==> h.notice == FetchFailed
    ensures fetched.Some? && |fetched.value| == 0 <==> h.notice == NothingQueued
    ensures fetched.Some? && |fetched.value| == 1 <==> h.notice.QueuedTrack?
    ensures fetched.Some? && |fetched.value| > 1 <==> h.notice.QueuedPlaylist?
    ensures h.notice.QueuedTrack? ==>
      var t := fetched.value[0];
      h.notice == QueuedTrack(t.title, TrackAddedMessage(t.duration, t.initiator, now), t.thumbnailURL, t.url)
  {
    match fetched
    case None => Handled(None, FetchFailed)
    case Some(response) =>
      if |response| <= 0 then Handled(fetched, NothingQueued)
      else if |response| == 1 then
        var t := response[0];
        Handled(fetched, QueuedTrack(t.title, TrackAddedMessage(t.duration, t.initiator, now), t.thumbnailURL, t.url))
      else Handled(fetched, QueuedPlaylist(PlaylistDescription(|response|)))
  }

  /**
   * handleProvider over the providers' resolvers, whose answers are taken to
   * be well formed: a throw while mapping a malformed answer, which would
   * reject the fetch, is not modelled, so this path always settles.
   */
  function HandleProviderWith(svcs: Services, provider: Provider, query: string, message: Message, now: Time.ClockSecond): Handled {
    HandleProvider(Some(SwitchFetchMetadataProvider(svcs, provider, query, message)), now)
  }

  /** The playlist notification carries the number of fetched tracks, which reads back from it. */
  lemma PlaylistCountReadsBack(fetched: seq<Track>, now: Time.ClockSecond)
    requires |fetched| > 1
    ensures var d := HandleProvider(Some(fetched), now).notice.description;
      |d| > 6 && d[..6] == "Added " && ParseInt(d[6..]) == Some(|fetched|)
  {
    var d := PlaylistDescription(|fetched|);
    var rest := " tracks into the queue";
    assert d[6..] == NatToString(|fetched|) + rest;
    ParseIntOfNatText(|fetched|, rest);
  }

  /** The track-added line of a track under an hour long shows its duration as `mm:ss`. */
  lemma AddedLineShowsDuration(n: nat, t: Track, now: Time.ClockSecond)
    requires n < Time.Hour && t.duration == NatToString(n)
    ensures var line := TrackAddedMessage(t.duration, t.initiator, now);
      Time.ReadsAsShort(line[..5], n) && line[5..] == " - Added by " + t.initiator.username
  {
    var f := Time.MomentFormat(Some(n), now);
    assert Utils.SecondsToHHMMSS(t.duration, now) == f by {
      ParseIntAutoOfNatText(n, []);
      assert NatToString(n) + [] == NatToString(n);
    }
    Time.ShortRoundTrip(n, now);
    var rest := " - Added by " + t.initiator.username;
    assert TrackAddedMessage(t.duration, t.initiator, now) == f + rest;
    assert (f + rest)[..5] == f && (f + rest)[5..] == rest;
  }

  /** A settled fetch is never lost: its list is passed on and no failure is reported. */
  lemma UndefinedOnlyOnRejection(svcs: Services, provider: Provider, query: string, message: Message, now: Time.ClockSecond)
    ensures HandleProviderWith(svcs, provider, query, message, now).tracks == Some(SwitchFetchMetadataProvider(svcs, provider, query, message))
    ensures HandleProviderWith(svcs, provider, query, message, now).notice != FetchFailed
  {
  }
}
