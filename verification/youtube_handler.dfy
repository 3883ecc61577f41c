/**
 * The YouTube handler of the current bot
 * (`packages/discord-bot/src/providers/youtube/youtube.handler.ts`).
 *
 * `fetchHandler` routes a query: a non-URL is searched, a URL with a `list`
 * parameter is a playlist (even when it is also a video URL), a video URL is
 * looked up alone, and any other URL gives nothing. Every lookup error is
 * captured, and the tracks of the successful lookups are pushed in order.
 * The method is proved equal to the function `Resolve`, whose properties are
 * the lemmas below.
 */
module YoutubeHandler {
  import opened Wrappers
  import opened Tracks
  import opened YoutubeApi
  import opened Lists

  /** What `fetchHandler` resolves to. */
  function Resolve(svc: YoutubeService, query: string, message: Message): (tracks: seq<Track>)
    ensures !svc.isURL(query) ==> |tracks| <= SearchLimit
    ensures svc.isURL(query) && svc.isVideo(query) && !HasListParam(svc, query) ==> |tracks| <= 1
    ensures svc.isURL(query) && !svc.isVideo(query) && !HasListParam(svc, query) ==> tracks == []
    ensures svc.isURL(query) && HasListParam(svc, query) && svc.playlistItems(svc.listParam(query)).None? ==> tracks == []
    ensures !svc.isURL(query) && svc.searchResults(query).None? ==> tracks == []
  {
    var toTrack := (v: VideoInfo) => VideoTrack(v, message);
    if svc.isURL(query) then
      if svc.isVideo(query) && !HasListParam(svc, query) then
        Lookups(svc.basicInfo, toTrack, [query])
      else if HasListParam(svc, query) then
        match svc.playlistItems(svc.listParam(query))
        case Some(ids) => Lookups(svc.basicInfo, toTrack, WatchURLs(ids))
        case None => []
      else []
    else
      match svc.searchResults(query)
      case Some(ids) => Lookups(svc.basicInfo, toTrack, Take(ids, SearchLimit))
      case None => []
  }

  /** fetchHandler: the loops push exactly what `Resolve` describes. */
  method FetchHandler(svc: YoutubeService, query: string, message: Message) returns (tracks: seq<Track>)
    ensures tracks == Resolve(svc, query, message)
  {
    tracks := [];
    var isValidURL := svc.isURL(query);
    var isVideo := if isValidURL then svc.isVideo(query) else false;
    var isPlaylist := if isValidURL then HasListParam(svc, query) else false;

    if isValidURL {
      if isVideo && !isPlaylist {
        var videoMetadata := svc.basicInfo(query);
        if videoMetadata.Some? {
          tracks := tracks + [VideoTrack(videoMetadata.value, message)];
        }
        assert [query][..0] == [];
      } else if isPlaylist {
        var playlistID := svc.listParam(query);
        var playlistMetadata := svc.playlistItems(playlistID);
        if playlistMetadata.Some? {
          var playlistVideoIDs := playlistMetadata.value;
          tracks := PushLookups(svc, WatchURLs(playlistVideoIDs), message);
        }
      }
    } else {
      var videoSearchResults := svc.searchResults(query);
      if videoSearchResults.Some? {
        tracks := PushLookups(svc, Take(videoSearchResults.value, SearchLimit), message);
      }
    }
  }

  /** Every resolved track is a YouTube track whose page URL is its stream URL, initiated by the message. */
  lemma ResolvedTracksAreYoutube(svc: YoutubeService, query: string, message: Message, j: int)
    requires 0 <= j < |Resolve(svc, query, message)|
    ensures var t := Resolve(svc, query, message)[j];
      t.provider == YouTube && t.url == t.streamURL && t.initiator == message
  {
    var toTrack := (v: VideoInfo) => VideoTrack(v, message);
    var keys: seq<string>;
    if svc.isURL(query) {
      if svc.isVideo(query) && !HasListParam(svc, query) {
        keys := [query];
      } else {
        keys := WatchURLs(svc.playlistItems(svc.listParam(query)).value);
      }
    } else {
      keys := Take(svc.searchResults(query).value, SearchLimit);
    }
    assert Resolve(svc, query, message) == Lookups(svc.basicInfo, toTrack, keys);
    LookupsFromKeys(svc.basicInfo, toTrack, keys, j);
  }

  /** A video URL (without a `list` parameter) gives its own track exactly when its lookup succeeds. */
  lemma VideoRoute(svc: YoutubeService, query: string, message: Message)
    requires svc.isURL(query) && svc.isVideo(query) && !HasListParam(svc, query)
    ensures svc.basicInfo(query).Some? ==> Resolve(svc, query, message) == [VideoTrack(svc.basicInfo(query).value, message)]
    ensures svc.basicInfo(query).None? ==> Resolve(svc, query, message) == []
  {
    assert [query][..0] == [];
  }

  /**
   * A URL with a `list` parameter is a playlist, video URL or not: one track
   * per playlist item whose watch page resolved, in playlist order.
   */
  lemma PlaylistRoute(svc: YoutubeService, query: string, message: Message, ids: seq<string>)
    requires svc.isURL(query) && HasListParam(svc, query)
    requires svc.playlistItems(svc.listParam(query)) == Some(ids)
    ensures Resolve(svc, query, message) == Lookups(svc.basicInfo, (v: VideoInfo) => VideoTrack(v, message), WatchURLs(ids))
    ensures |Resolve(svc, query, message)| <= |ids|
    ensures (forall i :: 0 <= i < |ids| ==> svc.basicInfo(WatchURL(ids[i])).Some?) ==>
      |Resolve(svc, query, message)| == |ids| &&
      forall i :: 0 <= i < |ids| ==> Resolve(svc, query, message)[i] == VideoTrack(svc.basicInfo(WatchURL(ids[i])).value, message)
  {
    var toTrack := (v: VideoInfo) => VideoTrack(v, message);
    if forall i :: 0 <= i < |ids| ==> svc.basicInfo(WatchURL(ids[i])).Some? {
      LookupsAllSucceed(svc.basicInfo, toTrack, WatchURLs(ids));
    }
  }

  /**
   * A non-URL is only searched: when the lookups of the results succeed, the
   * tracks are those of the first three results, in result order.
   */
  lemma SearchRoute(svc: YoutubeService, query: string, message: Message, ids: seq<string>)
    requires !svc.isURL(query) && svc.searchResults(query) == Some(ids)
    requires forall i :: 0 <= i < |ids| ==> svc.basicInfo(ids[i]).Some?
    ensures |Resolve(svc, query, message)| == if |ids| < SearchLimit then |ids| else SearchLimit
    ensures forall i :: 0 <= i < |Resolve(svc, query, message)| ==>
      Resolve(svc, query, message)[i] == VideoTrack(svc.basicInfo(ids[i]).value, message)
  {
    var toTrack := (v: VideoInfo) => VideoTrack(v, message);
    var first := Take(ids, SearchLimit);
    assert forall i :: 0 <= i < |first| ==> first[i] == ids[i];
    LookupsAllSucceed(svc.basicInfo, toTrack, first);
  }
}
