/**
 * What the SoundCloud handlers see of the SoundCloud API
 * (`packages/discord-bot/src/providers/soundcloud/soundcloud.guard.ts` for
 * the kind guards): a resolved resource is a JSON object whose `kind` says
 * whether it is a track, a playlist or a user. The `resolve` and `search`
 * requests are oracle fields of `SoundcloudService`; a request that rejects
 * or resolves to nothing reads as `None`.
 *
 * Shared by the SoundCloud handlers: the kind guards, the mapping of a
 * track resource to a `Track`, and the stream URL carrying the client id.
 */
module SoundcloudGuard {
  import opened Wrappers
  import opened Tracks
  import opened Text

  /**
   * A resource object, with the fields the handlers read: those of a track,
   * and a playlist's `tracks`.
   */
  datatype Resource = Resource(
    kind: string,
    permalinkUrl: string,   // permalink_url
    streamUrl: string,      // stream_url
    title: string,
    description: string,
    playbackCount: nat,     // playback_count
    artworkUrl: string,     // artwork_url
    durationMs: nat,        // duration, in milliseconds
    tracks: seq<Resource>)

  /** A response body: one resource, or an array of them (a user's tracks). */
  datatype Json = Object(resource: Resource) | Array(items: seq<Resource>)

  datatype SoundcloudService = SoundcloudService(
    /** `new URL(query)` succeeds. */
    isURL: string -> bool,
    /** `resolve.json?url=...`. */
    resolve: string -> Option<Json>,
    /** `tracks?q=...`. */
    search: string -> Option<seq<Resource>>)

  predicate IsTrack(r: Resource) {
    r.kind == "track"
  }

  predicate IsUser(r: Resource) {
    r.kind == "user"
  }

  predicate IsPlaylist(r: Resource) {
    r.kind == "playlist"
  }

  /** A resolved body is a track object (an array has no `kind`). */
  predicate IsTrackBody(body: Option<Json>) {
    body.Some? && body.value.Object? && IsTrack(body.value.resource)
  }

  predicate IsPlaylistBody(body: Option<Json>) {
    body.Some? && body.value.Object? && IsPlaylist(body.value.resource)
  }

  predicate IsUserBody(body: Option<Json>) {
    body.Some? && body.value.Object? && IsUser(body.value.resource)
  }

  /** At most one guard holds for any resource. */
  lemma GuardsExclusive(r: Resource)
    ensures !(IsTrack(r) && IsUser(r)) && !(IsTrack(r) && IsPlaylist(r)) && !(IsUser(r) && IsPlaylist(r))
  {
    assert "track"[0] != "user"[0] && "track"[0] != "playlist"[0] && "user"[0] != "playlist"[0];
  }

  /**
   * The current mapping of a track resource (`_mapSoundcloudTrack`,
   * `_mapTrackToTrack`, `mapTrack`): the play count as text, and the
   * duration as the text of the milliseconds divided by 1000.
   */
  function ResourceTrack(r: Resource, message: Message): (t: Track)
    ensures t.provider == SoundCloud && t.url == r.permalinkUrl && t.streamURL == r.streamUrl
    ensures t.title == r.title && t.thumbnailURL == r.artworkUrl && t.initiator == message
    ensures t.views == NatToString(r.playbackCount) && t.duration == MillisText(r.durationMs)
  {
    Track(SoundCloud, r.permalinkUrl, r.streamUrl, r.title, r.description,
          NatToString(r.playbackCount), r.artworkUrl, MillisText(r.durationMs), message)
  }

  /**
   * The mapped numbers read back as the play count and the whole seconds of
   * the duration (`parseInt`, as the duration formatting does).
   */
  lemma ResourceTrackNumbers(r: Resource, message: Message)
    ensures ParseInt(ResourceTrack(r, message).views) == Some(r.playbackCount as int)
    ensures ParseInt(ResourceTrack(r, message).duration) == Some(r.durationMs / 1000)
  {
    ParseIntRoundTrip(r.playbackCount);
    ParseMillisText(r.durationMs);
  }

  /** `resources.map(track => map(track, message))`. */
  function ResourceTracks(rs: seq<Resource>, message: Message): (ts: seq<Track>)
    ensures |ts| == |rs|
    ensures forall i :: 0 <= i < |rs| ==> ts[i] == ResourceTrack(rs[i], message)
  {
    seq(|rs|, i requires 0 <= i < |rs| => ResourceTrack(rs[i], message))
  }

  /** Mapping one more resource appends its track. */
  lemma ResourceTracksSnoc(rs: seq<Resource>, r: Resource, message: Message)
    ensures ResourceTracks(rs + [r], message) == ResourceTracks(rs, message) + [ResourceTrack(r, message)]
  {
  }

  /** The URL a SoundCloud track is played from: its stream URL with the client id. */
  function ClientStreamURL(track: Track, token: string): (url: string)
    ensures StartsWith(url, track.streamURL)
    ensures url[|track.streamURL|..] == "?client_id=" + token
  {
    track.streamURL + "?client_id=" + token
  }
}
