/**
 * The SoundCloud handler of the first bot (`src/providers/soundcloud.ts`):
 * every query, URL or not, goes to the resolve endpoint; there is no search.
 * A failed resolve is swallowed and gives nothing. This older mapping keeps
 * the API's duration as the text of its milliseconds.
 */
module LegacySoundcloud {
  import opened Wrappers
  import opened Tracks
  import opened Text
  import opened SoundcloudGuard

  /** mapTrackToTrack: as the current mapping, but the duration stays in milliseconds. */
  function LegacyTrack(r: Resource, message: Message): (t: Track)
    ensures t.provider == SoundCloud && t.url == r.permalinkUrl && t.streamURL == r.streamUrl
    ensures t.title == r.title && t.thumbnailURL == r.artworkUrl && t.initiator == message
    ensures t.views == NatToString(r.playbackCount) && t.duration == NatToString(r.durationMs)
  {
    Track(SoundCloud, r.permalinkUrl, r.streamUrl, r.title, r.description,
          NatToString(r.playbackCount), r.artworkUrl, NatToString(r.durationMs), message)
  }

  /** The duration text reads back as milliseconds here, and as whole seconds in the current mapping. */
  lemma DurationUnits(r: Resource, message: Message)
    ensures ParseInt(LegacyTrack(r, message).duration) == Some(r.durationMs as int)
    ensures ParseInt(ResourceTrack(r, message).duration) == Some(r.durationMs / 1000)
  {
    ParseIntRoundTrip(r.durationMs);
    ResourceTrackNumbers(r, message);
  }

  function LegacyTracks(rs: seq<Resource>, message: Message): (ts: seq<Track>)
    ensures |ts| == |rs|
    ensures forall i :: 0 <= i < |rs| ==> ts[i] == LegacyTrack(rs[i], message)
  {
    seq(|rs|, i requires 0 <= i < |rs| => LegacyTrack(rs[i], message))
  }

  /** fetchHandler: the query is resolved, whatever it is. */
  function FetchHandler(svc: SoundcloudService, query: string, message: Message): (tracks: seq<Track>)
    ensures svc.resolve(query).None? ==> tracks == []
    ensures IsTrackBody(svc.resolve(query)) ==> tracks == [LegacyTrack(svc.resolve(query).value.resource, message)]
    ensures IsPlaylistBody(svc.resolve(query)) ==> tracks == LegacyTracks(svc.resolve(query).value.resource.tracks, message)
    ensures !IsTrackBody(svc.resolve(query)) && !IsPlaylistBody(svc.resolve(query)) ==> tracks == []
  {
    var response := svc.resolve(query);
    if response.None? then []
    else if IsTrackBody(response) then [LegacyTrack(response.value.resource, message)]
    else if IsPlaylistBody(response) then LegacyTracks(response.value.resource.tracks, message)
    else []
  }

  /** The outcome never depends on whether the query is a URL, nor on any search. */
  lemma ResolveOnly(svc: SoundcloudService, other: SoundcloudService, query: string, message: Message)
    requires other.resolve == svc.resolve
    ensures FetchHandler(svc, query, message) == FetchHandler(other, query, message)
  {
  }
}
