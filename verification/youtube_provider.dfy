/**
 * The YouTube handler of the providers package
 * (`packages/providers/src/handlers/youtube.handler.ts`, `YoutubeHandler`).
 *
 * Same routing as the bot's own handler except for playlists: the playlist
 * branch requires the URL not to be a video URL, so a video URL that also
 * carries a `list` parameter yields nothing. `to(...)` captures every API
 * error, which reads as a failed lookup.
 */
module YoutubeProvider {
  import opened Wrappers
  import opened Tracks
  import opened YoutubeApi
  import opened Lists
  import YoutubeHandler

  /** What `fetchTrack` resolves to. */
  function Resolve(svc: YoutubeService, query: string, message: Message): (tracks: seq<Track>)
    ensures !svc.isURL(query) ==> |tracks| <= SearchLimit
    ensures svc.isURL(query) && svc.isVideo(query) && !HasListParam(svc, query) ==> |tracks| <= 1
    ensures svc.isURL(query) && svc.isVideo(query) && HasListParam(svc, query) ==> tracks == []
    ensures svc.isURL(query) && !svc.isVideo(query) && !HasListParam(svc, query) ==> tracks == []
    ensures svc.isURL(query) && HasListParam(svc, query) && svc.playlistItems(svc.listParam(query)).None? ==> tracks == []
    ensures !svc.isURL(query) && svc.searchResults(query).None? ==> tracks == []
  {
    var toTrack := (v: VideoInfo) => VideoTrack(v, message);
    if svc.isURL(query) then
      if svc.isVideo(query) && !HasListParam(svc, query) then
        Lookups(svc.basicInfo, toTrack, [query])
      else if !svc.isVideo(query) && HasListParam(svc, query) then
        match svc.playlistItems(svc.listParam(query))
        case Some(ids) => Lookups(svc.basicInfo, toTrack, WatchURLs(ids))
        case None => []
      else []
    else
      match svc.searchResults(query)
      case Some(ids) => Lookups(svc.basicInfo, toTrack, Take(ids, SearchLimit))
      case None => []
  }

  /** fetchTrack: the loops push exactly what `Resolve` describes. */
  method FetchTrack(svc: YoutubeService, query: string, message: Message) returns (tracks: seq<Track>)
    ensures tracks == Resolve(svc, query, message)
  {
    tracks := [];
    var isValidURL := svc.isURL(query);
    var isVideo := if isValidURL then svc.isVideo(query) else false;
    var isPlaylist := if isValidURL then HasListParam(svc, query) else false;

    if isValidURL {
      if isVideo && !isPlaylist {
        var videoMetadata := svc.basicInfo(query);
        if videoMetadata.Some? {
          var mappedTrack := VideoTrack(videoMetadata.value, message);
          tracks := tracks + [mappedTrack];
        }
        assert [query][..0] == [];
      } else if !isVideo && isPlaylist {
        var playlistID := svc.listParam(query);
        var playlistMetadata := svc.playlistItems(playlistID);
        if playlistMetadata.Some? {
          var playlistVideoIDs := playlistMetadata.value;
          tracks := PushLookups(svc, WatchURLs(playlistVideoIDs), message);
        }
      }
    } else {
      var videoSearchResults := svc.searchResults(query);
      if videoSearchResults.Some? {
        tracks := PushLookups(svc, Take(videoSearchResults.value, SearchLimit), message);
      }
    }
  }

  /** A playlist URL that is not a video URL gives one track per item that resolved, in playlist order. */
  lemma PlaylistRoute(svc: YoutubeService, query: string, message: Message, ids: seq<string>)
    requires svc.isURL(query) && !svc.isVideo(query) && HasListParam(svc, query)
    requires svc.playlistItems(svc.listParam(query)) == Some(ids)
    ensures |Resolve(svc, query, message)| <= |ids|
    ensures (forall i :: 0 <= i < |ids| ==> svc.basicInfo(WatchURL(ids[i])).Some?) ==>
      |Resolve(svc, query, message)| == |ids| &&
      forall i :: 0 <= i < |ids| ==> Resolve(svc, query, message)[i] == VideoTrack(svc.basicInfo(WatchURL(ids[i])).value, message)
    ensures (forall i :: 0 <= i < |ids| ==> svc.basicInfo(WatchURL(ids[i])).None?) ==> Resolve(svc, query, message) == []
  {
    var toTrack := (v: VideoInfo) => VideoTrack(v, message);
    if forall i :: 0 <= i < |ids| ==> svc.basicInfo(WatchURL(ids[i])).Some? {
      LookupsAllSucceed(svc.basicInfo, toTrack, WatchURLs(ids));
    }
    if forall i :: 0 <= i < |ids| ==> svc.basicInfo(WatchURL(ids[i])).None? {
      LookupsNoneSucceed(svc.basicInfo, toTrack, WatchURLs(ids));
    }
  }

  /**
   * The package's handler resolves every query as the bot's own handler
   * does, except a video URL that also carries `list`, which the bot treats
   * as a playlist and the package drops.
   */
  lemma AgreesWithBotHandler(svc: YoutubeService, query: string, message: Message)
    ensures !(svc.isURL(query) && svc.isVideo(query) && HasListParam(svc, query)) ==>
      Resolve(svc, query, message) == YoutubeHandler.Resolve(svc, query, message)
    ensures svc.isURL(query) && svc.isVideo(query) && HasListParam(svc, query) ==>
      Resolve(svc, query, message) == [] &&
      YoutubeHandler.Resolve(svc, query, message) == (match svc.playlistItems(svc.listParam(query))
        case Some(ids) => Lookups(svc.basicInfo, (v: VideoInfo) => VideoTrack(v, message), WatchURLs(ids))
        case None => [])
  {
  }

  /** A search whose results' lookups all succeed gives the tracks of the first three results, in order, as in the bot. */
  lemma SearchRoute(svc: YoutubeService, query: string, message: Message, ids: seq<string>)
    requires !svc.isURL(query) && svc.searchResults(query) == Some(ids)
    requires forall i :: 0 <= i < |ids| ==> svc.basicInfo(ids[i]).Some?
    ensures |Resolve(svc, query, message)| == if |ids| < SearchLimit then |ids| else SearchLimit
    ensures forall i :: 0 <= i < |Resolve(svc, query, message)| ==>
      Resolve(svc, query, message)[i] == VideoTrack(svc.basicInfo(ids[i]).value, message)
  {
    AgreesWithBotHandler(svc, query, message);
    YoutubeHandler.SearchRoute(svc, query, message, ids);
  }
}
