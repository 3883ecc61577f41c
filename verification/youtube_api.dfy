/**
 * What the YouTube handlers of both bots see of the outside world: the
 * `ytdl-core` video information, the URL predicates and the three remote
 * lookups (video information, playlist items, search). Each is an oracle
 * field of `YoutubeService`; a lookup that rejects, or resolves to nothing,
 * reads as `None`.
 *
 * Shared by all YouTube handlers: the watch URL built from a video id, the
 * mapping of video information to a `Track`, and the accumulation of the
 * tracks whose lookup succeeded.
 */
module YoutubeApi {
  import opened Wrappers
  import opened Tracks
  import opened Text

  /** The parts of `ytdl-core`'s `videoInfo` the handlers read. */
  datatype VideoInfo = VideoInfo(
    videoUrl: string,          // video_url
    title: string,             // title (older ytdl releases)
    detailsTitle: string,      // player_response.videoDetails.title
    description: string,       // description
    viewCount: string,         // view_count (older ytdl releases)
    detailsViewCount: string,  // player_response.videoDetails.viewCount
    thumbnailUrl: string,      // thumbnail_url
    lengthSeconds: string)     // length_seconds

  datatype YoutubeService = YoutubeService(
    /** `new URL(query)` succeeds. */
    isURL: string -> bool,
    /** `YTDL.validateURL`. */
    isVideo: string -> bool,
    /** `new URL(url).searchParams.get('list')` of a URL. */
    listParam: string -> Option<string>,
    /** `YTDL.getBasicInfo`, given a URL or a bare video id. */
    basicInfo: string -> Option<VideoInfo>,
    /** The video ids of the playlist items request; `None` when no id is sent. */
    playlistItems: Option<string> -> Option<seq<string>>,
    /** The video ids of the search request's result items. */
    searchResults: string -> Option<seq<string>>)

  /** `new URL(url).searchParams.has('list')`, for a URL. */
  predicate HasListParam(svc: YoutubeService, url: string) {
    svc.listParam(url).Some?
  }

  /** At most this many search results are looked up (`items.slice(0, 3)`). */
  const SearchLimit: nat := 3

  const WatchPrefix: string := "https://youtube.com/watch?v="

  /** buildURLFromID: the watch page of a video id. */
  function WatchURL(id: string): (url: string)
    ensures StartsWith(url, WatchPrefix) && url[|WatchPrefix|..] == id
  {
    WatchPrefix + id
  }

  /** Distinct ids give distinct watch URLs. */
  lemma WatchURLInjective(a: string, b: string)
    requires WatchURL(a) == WatchURL(b)
    ensures a == b
  {
    assert a == WatchURL(a)[|WatchPrefix|..];
  }

  /** The watch URL of every id, in order (`items.map(...)` then the URL of each). */
  function WatchURLs(ids: seq<string>): (urls: seq<string>)
    ensures |urls| == |ids|
    ensures forall i :: 0 <= i < |ids| ==> urls[i] == WatchURL(ids[i])
  {
    seq(|ids|, i requires 0 <= i < |ids| => WatchURL(ids[i]))
  }

  /**
   * mapVideoTrack (and the identical `mapTrack` of the providers package):
   * the title and view count come from `player_response.videoDetails`, and
   * the video URL is both the page URL and the stream URL.
   */
  function VideoTrack(v: VideoInfo, message: Message): (t: Track)
    ensures t.provider == YouTube && t.url == v.videoUrl && t.streamURL == v.videoUrl
    ensures t.title == v.detailsTitle && t.views == v.detailsViewCount
    ensures t.duration == v.lengthSeconds && t.initiator == message
  {
    Track(YouTube, v.videoUrl, v.videoUrl, v.detailsTitle, v.description,
          v.detailsViewCount, v.thumbnailUrl, v.lengthSeconds, message)
  }

  /** The YouTube stream of a track: `YTDL(track.streamURL, ...)`. */
  function ReadableStream(track: Track): Readable {
    Readable(track.streamURL)
  }

  /** The track of one lookup, or nothing when it failed. */
  function LookupOne(basicInfo: string -> Option<VideoInfo>, toTrack: VideoInfo -> Track, key: string): seq<Track> {
    match basicInfo(key)
    case Some(v) => [toTrack(v)]
    case None => []
  }

  /**
   * The tracks of the keys whose lookup succeeded, in key order: what a loop
   * looking each key up and pushing the successes accumulates.
   */
  function Lookups(basicInfo: string -> Option<VideoInfo>, toTrack: VideoInfo -> Track, keys: seq<string>): (r: seq<Track>)
    ensures |r| <= |keys|
    decreases |keys|
  {
    if keys == [] then []
    else Lookups(basicInfo, toTrack, keys[..|keys| - 1]) + LookupOne(basicInfo, toTrack, keys[|keys| - 1])
  }

  /** Looking up two runs of keys one after the other concatenates their tracks. */
  lemma {:induction false} LookupsAppend(basicInfo: string -> Option<VideoInfo>, toTrack: VideoInfo -> Track, a: seq<string>, b: seq<string>)
    ensures Lookups(basicInfo, toTrack, a + b) == Lookups(basicInfo, toTrack, a) + Lookups(basicInfo, toTrack, b)
    decreases |b|
  {
    if b == [] {
      assert a + b == a;
    } else {
      var b' := b[..|b| - 1];
      assert (a + b)[..|a + b| - 1] == a + b';
      assert (a + b)[|a + b| - 1] == b[|b| - 1];
      LookupsAppend(basicInfo, toTrack, a, b');
    }
  }

  /** When every lookup succeeds, each key gives its track, in order. */
  lemma {:induction false} LookupsAllSucceed(basicInfo: string -> Option<VideoInfo>, toTrack: VideoInfo -> Track, keys: seq<string>)
    requires forall i :: 0 <= i < |keys| ==> basicInfo(keys[i]).Some?
    ensures |Lookups(basicInfo, toTrack, keys)| == |keys|
    ensures forall i :: 0 <= i < |keys| ==> Lookups(basicInfo, toTrack, keys)[i] == toTrack(basicInfo(keys[i]).value)
    decreases |keys|
  {
    if keys != [] {
      var init := keys[..|keys| - 1];
      assert forall i :: 0 <= i < |init| ==> init[i] == keys[i];
      LookupsAllSucceed(basicInfo, toTrack, init);
    }
  }

  /** When every lookup fails, nothing is accumulated. */
  lemma {:induction false} LookupsNoneSucceed(basicInfo: string -> Option<VideoInfo>, toTrack: VideoInfo -> Track, keys: seq<string>)
    requires forall i :: 0 <= i < |keys| ==> basicInfo(keys[i]).None?
    ensures Lookups(basicInfo, toTrack, keys) == []
    decreases |keys|
  {
    if keys != [] {
      var init := keys[..|keys| - 1];
      assert forall i :: 0 <= i < |init| ==> init[i] == keys[i];
      LookupsNoneSucceed(basicInfo, toTrack, init);
    }
  }

  /** Every accumulated track is the mapping of some key's successful lookup. */
  lemma {:induction false} LookupsFromKeys(basicInfo: string -> Option<VideoInfo>, toTrack: VideoInfo -> Track, keys: seq<string>, j: int)
    requires 0 <= j < |Lookups(basicInfo, toTrack, keys)|
    ensures exists i :: 0 <= i < |keys| && basicInfo(keys[i]).Some? && Lookups(basicInfo, toTrack, keys)[j] == toTrack(basicInfo(keys[i]).value)
    decreases |keys|
  {
    var init := keys[..|keys| - 1];
    var last := keys[|keys| - 1];
    if j < |Lookups(basicInfo, toTrack, init)| {
      LookupsFromKeys(basicInfo, toTrack, init, j);
      var i :| 0 <= i < |init| && basicInfo(init[i]).Some? && Lookups(basicInfo, toTrack, init)[j] == toTrack(basicInfo(init[i]).value);
      assert keys[i] == init[i];
    } else {
      assert basicInfo(last).Some?;
      assert keys[|keys| - 1] == last;
    }
  }

  /** The loops over playlist items and search results: each key is looked up in turn, and the tracks found are pushed in order. */
  method PushLookups(svc: YoutubeService, results: seq<string>, message: Message) returns (tracks: seq<Track>)
    ensures tracks == Lookups(svc.basicInfo, (v: VideoInfo) => VideoTrack(v, message), results)
  {
    var toTrack := (v: VideoInfo) => VideoTrack(v, message);
    tracks := [];
    for i := 0 to |results|
      invariant tracks == Lookups(svc.basicInfo, toTrack, results[..i])
    {
      var videoMetadata := svc.basicInfo(results[i]);
      if videoMetadata.Some? {
        var mappedTrack := VideoTrack(videoMetadata.value, message);
        tracks := tracks + [mappedTrack];
      }
      assert results[..i + 1][..i] == results[..i];
    }
    assert results[..|results|] == results;
  }
}
