/**
 * The YouTube handler of the first bot (`src/providers/youtube.ts`).
 *
 * Routing is textual: a query containing `list=` is a playlist, otherwise a
 * query starting with `http` is a video URL, otherwise it is searched. Every
 * lookup failure is swallowed. The one failure that escapes is the `URL`
 * constructor, which throws synchronously when a query containing `list=` is
 * not a URL: `fetchHandler` then throws instead of returning a promise, which
 * `FetchHandler` reports as `None`.
 */
module LegacyYoutube {
  import opened Wrappers
  import opened Tracks
  import opened Text
  import opened YoutubeApi

  /** isPlaylist: `url.indexOf('list=') > -1`. */
  predicate IsPlaylist(url: string) {
    Contains(url, "list=")
  }

  /** isQuery: `!query.startsWith('http')`. */
  predicate IsQuery(query: string) {
    !StartsWith(query, "http")
  }

  /** isPlaylist holds exactly when `list=` occurs somewhere in the query. */
  lemma IsPlaylistIff(url: string)
    ensures IsPlaylist(url) <==> exists i :: OccursAt(url, "list=", i)
  {
    ContainsIff(url, "list=");
  }

  /**
   * mapMetadataToTrack: this older mapping reads the top-level `title` and
   * `view_count` of the video information.
   */
  function MetadataToTrack(v: VideoInfo, message: Message): (t: Track)
    ensures t.provider == YouTube && t.url == v.videoUrl && t.streamURL == v.videoUrl
    ensures t.title == v.title && t.views == v.viewCount
    ensures t.duration == v.lengthSeconds && t.initiator == message
  {
    Track(YouTube, v.videoUrl, v.videoUrl, v.title, v.description,
          v.viewCount, v.thumbnailUrl, v.lengthSeconds, message)
  }

  /** fetchVideoMetadata: the track of a URL, or nothing when the lookup fails. */
  function FetchVideoMetadata(svc: YoutubeService, url: string, message: Message): (r: Option<Track>)
    ensures r.Some? <==> svc.basicInfo(url).Some?
    ensures r.Some? ==> r.value == MetadataToTrack(svc.basicInfo(url).value, message)
  {
    match svc.basicInfo(url)
    case Some(v) => Some(MetadataToTrack(v, message))
    case None => None
  }

  /** `metadata ? [metadata] : []`. */
  function AsList(t: Option<Track>): (r: seq<Track>)
    ensures |r| <= 1
    ensures t.Some? ==> r == [t.value]
    ensures t.None? ==> r == []
  {
    match t
    case Some(x) => [x]
    case None => []
  }

  /**
   * fetchPlaylistVideosMetadata: the watch page of every listed video is
   * looked up, the failures filtered out. A failed playlist request lists
   * no video.
   */
  function FetchPlaylistVideos(svc: YoutubeService, url: string, message: Message): (tracks: seq<Track>)
    requires svc.isURL(url)
  {
    var ids := svc.playlistItems(svc.listParam(url)).GetOr([]);
    Lookups(svc.basicInfo, (v: VideoInfo) => MetadataToTrack(v, message), WatchURLs(ids))
  }

  /**
   * fetchSearchVideos: only the first search result is looked up, through
   * its watch page; a failed search looks up the id `unknown`, and an empty
   * result list makes `items[0].id` throw, which is swallowed.
   */
  function FetchSearchVideo(svc: YoutubeService, query: string, message: Message): (r: Option<Track>)
    ensures svc.searchResults(query) == Some([]) ==> r == None
    ensures svc.searchResults(query).None? ==> r == FetchVideoMetadata(svc, WatchURL("unknown"), message)
    ensures match svc.searchResults(query)
      case Some(ids) => |ids| > 0 ==> r == FetchVideoMetadata(svc, WatchURL(ids[0]), message)
      case None => true
  {
    match svc.searchResults(query)
    case None => FetchVideoMetadata(svc, WatchURL("unknown"), message)
    case Some(ids) => if ids == [] then None else FetchVideoMetadata(svc, WatchURL(ids[0]), message)
  }

  /** fetchHandler: `None` when it throws, else what its promise resolves to. */
  function FetchHandler(svc: YoutubeService, url: string, message: Message): (r: Option<seq<Track>>)
    ensures r.None? <==> IsPlaylist(url) && !svc.isURL(url)
    ensures !IsPlaylist(url) ==> r.Some? && |r.value| <= 1
    ensures !IsPlaylist(url) && !IsQuery(url) ==> r == Some(AsList(FetchVideoMetadata(svc, url, message)))
    ensures !IsPlaylist(url) && IsQuery(url) ==> r == Some(AsList(FetchSearchVideo(svc, url, message)))
  {
    if IsPlaylist(url) then
      if svc.isURL(url) then Some(FetchPlaylistVideos(svc, url, message)) else None
    else if !IsQuery(url) then Some(AsList(FetchVideoMetadata(svc, url, message)))
    else Some(AsList(FetchSearchVideo(svc, url, message)))
  }

  /**
   * A playlist URL gives one track per listed video whose lookup succeeded,
   * in playlist order; a URL that is also a video URL is still a playlist.
   */
  lemma PlaylistRoute(svc: YoutubeService, url: string, message: Message, ids: seq<string>)
    requires IsPlaylist(url) && svc.isURL(url)
    requires svc.playlistItems(svc.listParam(url)) == Some(ids)
    ensures FetchHandler(svc, url, message).Some?
    ensures |FetchHandler(svc, url, message).value| <= |ids|
    ensures (forall i :: 0 <= i < |ids| ==> svc.basicInfo(WatchURL(ids[i])).Some?) ==>
      |FetchHandler(svc, url, message).value| == |ids| &&
      forall i :: 0 <= i < |ids| ==> FetchHandler(svc, url, message).value[i] == MetadataToTrack(svc.basicInfo(WatchURL(ids[i])).value, message)
  {
    var toTrack := (v: VideoInfo) => MetadataToTrack(v, message);
    if forall i :: 0 <= i < |ids| ==> svc.basicInfo(WatchURL(ids[i])).Some? {
      LookupsAllSucceed(svc.basicInfo, toTrack, WatchURLs(ids));
    }
  }

  /** A playlist whose request fails gives no track. */
  lemma PlaylistFailure(svc: YoutubeService, url: string, message: Message)
    requires IsPlaylist(url) && svc.isURL(url)
    requires svc.playlistItems(svc.listParam(url)).None?
    ensures FetchHandler(svc, url, message) == Some([])
  {
    assert WatchURLs([]) == [];
  }

  /** A query with `list=` anywhere is routed to the playlist branch, before the `http` test. */
  lemma PlaylistFirst(svc: YoutubeService, url: string, message: Message, i: int)
    requires OccursAt(url, "list=", i) && svc.isURL(url)
    ensures FetchHandler(svc, url, message) == Some(FetchPlaylistVideos(svc, url, message))
  {
    IsPlaylistIff(url);
  }
}
