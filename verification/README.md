# discord-stream, modelled in Dafny

discord-stream is a Discord music bot, written in TypeScript, in two
generations: the first bot (`src/`) and a monorepo (`packages/`) holding
the current bot (`packages/discord-bot`), a shared providers package
(`packages/providers`) and a REST API (`packages/rest-api`) that keeps
guilds, queues and users' favorites in MongoDB.

Users type commands in a guild's text channel. A command is recognised by
the bot's prefix (`$` for the first bot, the default prefix or a guild's
custom prefix for the current one). `play` resolves a query or a URL
through a YouTube or SoundCloud provider into tracks. The tracks are
appended to the guild's queue, and the playback engine plays the queue's
head in the member's voice channel, popping one track each time a track
ends. Further commands list the queue in pages of ten, shuffle it while
keeping the track that plays, drop duplicates or tracks of members who
left, clear it, and set the volume.

This project models that bookkeeping:

- the per-guild queue stores of both bots, as classes holding a map, with
  the first bot's stored arrays as objects so that in-place `shift` is
  visible;
- both playback engines over an abstract voice connection;
- the YouTube and SoundCloud handlers of both bots and of the providers
  package, with every remote lookup an oracle parameter;
- provider detection and dispatch;
- the queue-editing, `play`, `volume` and `prefix` commands;
- message parsing in both bots, and both prefix loaders;
- the duration formatting of the three copies of `secondsToHHMMSS`;
- the REST API's guild, queue and favorites controllers, its pagination,
  and its token protection and error normalisation.

Every method is proved against a function on the state it changes, and the
lemmas state what the source promises about those functions. Each file is
one module named after the component it models; `Wrappers`, `Text`,
`Lists` and `Tracks` hold what the others share.

## Model

| member | source | states |
|---|---|---|
| QueueStore.CurrentTrack | packages/discord-bot/src/player/queue.ts:124-129 | a current track exists exactly when the guild's queue is non-empty, and it is the queue's first track |
| QueueStore.Splice | packages/discord-bot/src/player/queue.ts:68 | `Array#splice` with clamped and negative starts: the array loses exactly the elements it removes |
| QueueStore.SpliceInRange | packages/discord-bot/src/player/queue.ts:68 | for an in-range start and count, splice keeps the elements before the start and after the removed run, and removes exactly that run |
| QueueStore.SpliceRestores | packages/discord-bot/src/player/queue.ts:68 | putting the removed elements back at the start index restores the original array |
| QueueStore.WithTracksAdded | packages/discord-bot/src/player/queue.ts:15-28 | the guild then has an entry holding the old queue followed by `tracks`; every other guild keeps its entry and queue |
| QueueStore.WithFirstRemoved | packages/discord-bot/src/player/queue.ts:36-49 | the guild's queue loses exactly its first track; the entry remains only while tracks remain; other guilds are untouched |
| QueueStore.WithTracksRemoved | packages/discord-bot/src/player/queue.ts:59-73 | an existing entry holds the spliced queue and is kept even when empty; an absent guild leaves the store unchanged |
| QueueStore.WithoutQueue | packages/discord-bot/src/player/queue.ts:80-87 | the guild no longer has an entry, a queue or a current track; other guilds are untouched |
| QueueStore.WithQueueReplaced | packages/discord-bot/src/player/queue.ts:107-116 | an existing entry is overwritten with the new queue; an absent guild gets no entry and reads as empty |
| QueueStore.ReplaceWithSame | packages/discord-bot/src/player/queue.ts:107-116 | replacing a guild's queue by what it reads as changes nothing |
| QueueStore.DrainDeletes | packages/discord-bot/src/player/queue.ts:36-49 | removing the first track as many times as there are tracks deletes the entry and touches no other guild |
| QueueStore.GuildQueues.constructor | packages/discord-bot/src/player/queue.ts:6 | the collection starts empty |
| QueueStore.GuildQueues.AddTracks | packages/discord-bot/src/player/queue.ts:15-28 | the store becomes `WithTracksAdded`; the result is the guild's new queue, as long as the old one plus `tracks` |
| QueueStore.GuildQueues.RemoveFirstTrack | packages/discord-bot/src/player/queue.ts:36-49 | the store becomes `WithFirstRemoved`; the result is the guild's queue afterwards |
| QueueStore.GuildQueues.RemoveTracks | packages/discord-bot/src/player/queue.ts:59-73 | the store becomes `WithTracksRemoved`; the result is the guild's queue afterwards |
| QueueStore.GuildQueues.RemoveQueue | packages/discord-bot/src/player/queue.ts:80-87 | the store becomes `WithoutQueue` |
| QueueStore.GuildQueues.GetQueue | packages/discord-bot/src/player/queue.ts:95-99 | the guild's queue, empty for a guild with no entry; nothing changes |
| QueueStore.GuildQueues.ReplaceQueue | packages/discord-bot/src/player/queue.ts:107-116 | the store becomes `WithQueueReplaced`; the result is the guild's queue afterwards |
| QueueStore.GuildQueues.GetCurrentTrack | packages/discord-bot/src/player/queue.ts:124-129 | the current track is the stored queue's first element, or none |
| LegacyQueue.JsArray.Shift | src/player/queue.ts:51 | `shift` removes and returns the first element in place; an empty array stays empty and yields nothing |
| LegacyQueue.LegacyGuildQueues.constructor | src/player/queue.ts:9 | the collection starts empty |
| LegacyQueue.LegacyGuildQueues.AddTracks | src/player/queue.ts:18-33 | the contents change as in the current store; a new guild is handed back its own `tracks` array, an existing one a fresh copy that is not the stored array |
| LegacyQueue.LegacyGuildQueues.RemoveFirstTrack | src/player/queue.ts:41-60 | the contents change as in the current store; for a stored guild the live stored array itself is handed back, shifted |
| LegacyQueue.LegacyGuildQueues.RemoveQueue | src/player/queue.ts:67-77 | the guild's entry is deleted when present, nothing else changes |
| LegacyQueue.LegacyGuildQueues.GetQueue | src/player/queue.ts:84-95 | the live stored array (or an empty one) holding the guild's queue |
| Player.ExactlyOnePath | packages/discord-bot/src/player/player.ts:44-51 | every track is played one way: a YouTube track through the readable stream, a SoundCloud track through the arbitrary input |
| Player.PlayDecision | packages/discord-bot/src/player/player.ts:24-52 | the guards in order (no connection, already speaking, nothing to play), each an if-and-only-if; otherwise a dispatcher starts for the first track, carrying the message |
| Player.Silenced | packages/discord-bot/src/player/player.ts:134-136 | a dispatcher's end leaves the connection silent, with its volume, and forgets the dispatcher |
| Player.Left | packages/discord-bot/src/player/player.ts:86-91 | leaving or disconnecting forgets the guild's connection and dispatcher and no other guild's |
| Player.StopDecision | packages/discord-bot/src/player/player.ts:60-71 | the dispatcher is ended, with the reason `skip`, exactly when the guild's connection is speaking |
| Player.WithVolume | packages/discord-bot/src/player/player.ts:101-118 | only a connected, speaking guild takes the new volume; otherwise nothing changes |
| Player.Player.constructor | packages/discord-bot/src/player/player.ts:1-11 | the engine starts with no connection and no dispatcher, over the given queue store |
| Player.Player.PlayTrack | packages/discord-bot/src/player/player.ts:24-52 | the outcome is `PlayDecision` and the voice state follows it; the queue store is not touched |
| Player.Player.StopTrack | packages/discord-bot/src/player/player.ts:60-71 | the end reason is `StopDecision`; nothing changes |
| Player.Player.CleanPlayer | packages/discord-bot/src/player/player.ts:80-91 | the guild's queue is always removed; the connection is dropped only when one exists |
| Player.Player.SetVolume | packages/discord-bot/src/player/player.ts:101-118 | applied exactly when connected and speaking, and the voice state becomes `WithVolume` |
| Player.Player.OnTrackEnd | packages/discord-bot/src/player/player.ts:167-176 | exactly one track is popped whatever the reason; the new head is played from its initiator's message, or the channel is left |
| Player.Player.DispatcherEnd | packages/discord-bot/src/player/player.ts:132-157 | a guild's `end` event silences it and runs `onTrackEnd` with the message the dispatcher was started with |
| Player.EndAdvances | packages/discord-bot/src/player/player.ts:167-176 | one end event while the head plays removes the head and plays the next track; after the last one the entry is gone and the channel left |
| Player.EndsPlayInOrder | packages/discord-bot/src/player/player.ts:167-176 | after `k` end events the `k`-th queued track plays and the queue holds the tracks after it; after all of them the queue is gone and the channel left |
| LegacyPlayer.PlayDecision | src/player/player.ts:21-44 | the guards in order on the already shifted element, each an if-and-only-if; otherwise the shifted track starts on the guild's connection |
| LegacyPlayer.Silenced | src/player/player.ts:47 | a dispatcher's end forgets the dispatcher |
| LegacyPlayer.Left | src/player/player.ts:56 | leaving the channel forgets the guild's connection and dispatcher |
| LegacyPlayer.EndContents | src/player/player.ts:47-59 | the store after the `end` handler: one pop, then, when tracks remain, a second shift of the live stored array; other guilds are untouched |
| LegacyPlayer.LegacyPlayer.constructor | src/player/player.ts:1-8 | the engine starts with no connection and no dispatcher, over the given store |
| LegacyPlayer.LegacyPlayer.PlayTrack | src/player/player.ts:21-44 | the argument array is shifted before any guard; the outcome is `PlayDecision` on the shifted element |
| LegacyPlayer.LegacyPlayer.DispatcherEnd | src/player/player.ts:47-59 | the store becomes `EndContents` and the voice state `EndVoice` for the dispatcher's initiator |
| LegacyPlayer.LegacyPlayer.PlayStoredHead | src/player/player.ts:52-53 | playing the next track shifts the guild's live stored array, so the store loses its head too; the play decision is taken on that head |
| LegacyPlayer.LegacyEndsSkip | src/player/player.ts:25-53 | two end events after the start play the first two tracks, but the third is neither played nor still queued |
| LegacyPlayer.FourTracksPlayThree | src/player/player.ts:25-53 | a queue of four tracks plays the first, the second and the fourth only |
| Dispatch.HandleStreamProvider | packages/discord-bot/src/providers/handler.ts:18-32 | a YouTube track gets a readable stream of its stream URL and no input URL; a SoundCloud track gets `streamURL?client_id=<token>` and no stream |
| Dispatch.SwitchFetchMetadataProvider | packages/discord-bot/src/providers/handler.ts:90-100 | every fetched track carries the tagged provider and the initiating message |
| Dispatch.ResolverTrack | packages/discord-bot/src/providers/handler.ts:96-97 | every track of the SoundCloud resolver is a SoundCloud track initiated by the message |
| Dispatch.HandleProvider | packages/discord-bot/src/providers/handler.ts:42-80 | the fetched list passes through unchanged; exactly one notification is sent, chosen by its length (none found, one track, a playlist) or by a rejection, which resolves to `undefined` |
| Dispatch.PlaylistCountReadsBack | packages/discord-bot/src/providers/handler.ts:66-68 | the playlist notification reads `Added <n> ...` and `n` parses back to the number of fetched tracks |
| Dispatch.AddedLineShowsDuration | packages/discord-bot/src/providers/handler.ts:110-114 | for a track under an hour, the added line starts with its `mm:ss` duration, then ` - Added by ` and the author's name |
| Dispatch.UndefinedOnlyOnRejection | packages/discord-bot/src/providers/handler.ts:43-79 | when the resolvers settle with a list, that list is passed on unchanged and the failure notification is not sent; only a rejection, handled by `HandleProvider`, gives `undefined` |
| LegacyDispatch.SameStreamChoice | src/providers/handler.ts:19-33 | the first bot feeds every track to the voice connection exactly as the current bot does |
| LegacyDispatch.SwitchFetchMetadataProvider | src/providers/handler.ts:94-104 | throws synchronously exactly for a YouTube `list=` query that is not a URL; SoundCloud goes to its handler |
| LegacyDispatch.HandleProvider | src/providers/handler.ts:43-84 | as in the current bot, plus: a one-element list whose element is missing gets the error notification instead of the track embed |
| LegacyDispatch.NoMissingTrack | src/providers/handler.ts:54-56 | the first bot's handlers never leave the element missing and never reject, so neither of those notifications is sent |
| LegacyDispatch.SameNoticeKind | src/providers/handler.ts:46-76 | the two bots send the same kind of notification for the same fetched list |
| ProvidersIndex.FetchMetadata | packages/providers/src/index.ts:67-75 | every track carries the tagged provider and the initiating message |
| ProvidersIndex.YoutubeTrack | packages/providers/src/index.ts:70 | every track of the package's YouTube handler is a YouTube track initiated by the message |
| ProvidersIndex.HandleProvider | packages/providers/src/index.ts:28-36 | resolves to the fetched tracks, or `[]` after a rejection; the failure notification is sent exactly when the result is empty |
| ProvidersIndex.SameStreamChoice | packages/providers/src/index.ts:44-56 | the package feeds every track to the voice connection as the bot's own dispatch does |
| ProvidersIndex.NeverUndefined | packages/providers/src/index.ts:29-35 | never `undefined`, unlike the bot's dispatch; it notifies exactly when the bot's dispatch would report a failure or an empty result |
| YoutubeApi.WatchURL | packages/discord-bot/src/providers/youtube/youtube.handler.ts:89-91 | the watch URL is the fixed watch prefix followed by the video id, which reads back from it |
| YoutubeApi.WatchURLInjective | packages/discord-bot/src/providers/youtube/youtube.handler.ts:89-91 | distinct video ids give distinct watch URLs |
| YoutubeApi.WatchURLs | packages/discord-bot/src/providers/youtube/youtube.handler.ts:41-44 | one watch URL per playlist item id, in order |
| YoutubeApi.VideoTrack | packages/discord-bot/src/providers/youtube/youtube.handler.ts:99-111 | a YouTube track whose page and stream URL are the video URL, with the title, views and duration of the video details, initiated by the message |
| YoutubeApi.Lookups | packages/discord-bot/src/providers/youtube/youtube.handler.ts:43-49 | the loop pushes at most one track per key |
| YoutubeApi.LookupsAppend | packages/discord-bot/src/providers/youtube/youtube.handler.ts:43-49 | looking up two runs of keys one after the other concatenates their tracks |
| YoutubeApi.LookupsAllSucceed | packages/discord-bot/src/providers/youtube/youtube.handler.ts:43-49 | when every lookup succeeds, each key gives its track, in key order |
| YoutubeApi.LookupsNoneSucceed | packages/discord-bot/src/providers/youtube/youtube.handler.ts:46 | when every lookup fails, nothing is pushed |
| YoutubeApi.LookupsFromKeys | packages/discord-bot/src/providers/youtube/youtube.handler.ts:43-49 | every pushed track comes from the successful lookup of some key |
| YoutubeHandler.Resolve | packages/discord-bot/src/providers/youtube/youtube.handler.ts:23-69 | a search gives at most three tracks; a video URL without `list` at most one; a URL that is neither gives none; a failed playlist or search request gives none |
| YoutubeHandler.FetchHandler | packages/discord-bot/src/providers/youtube/youtube.handler.ts:23-69 | the `for` loops push exactly the tracks `Resolve` describes |
| YoutubeHandler.ResolvedTracksAreYoutube | packages/discord-bot/src/providers/youtube/youtube.handler.ts:99-111 | every resolved track is a YouTube track whose page URL is its stream URL, initiated by the message |
| YoutubeHandler.VideoRoute | packages/discord-bot/src/providers/youtube/youtube.handler.ts:30-35 | a video URL without `list` gives its own track exactly when its lookup succeeds, and nothing otherwise |
| YoutubeHandler.PlaylistRoute | packages/discord-bot/src/providers/youtube/youtube.handler.ts:36-50 | a URL with `list`, video URL or not, gives one track per playlist item whose watch page resolved, in playlist order |
| YoutubeHandler.SearchRoute | packages/discord-bot/src/providers/youtube/youtube.handler.ts:52-65 | when the results' lookups succeed, a search gives the tracks of the first three results, in result order |
| YoutubeProvider.Resolve | packages/providers/src/handlers/youtube.handler.ts:19-79 | as the bot's handler, except that a video URL that also carries `list` gives nothing |
| YoutubeProvider.FetchTrack | packages/providers/src/handlers/youtube.handler.ts:19-79 | the `for` loops push exactly the tracks `Resolve` describes |
| YoutubeApi.PushLookups | packages/discord-bot/src/providers/youtube/youtube.handler.ts:43-49 | each key is looked up in turn and exactly the tracks of the successful lookups are pushed, in key order |
| YoutubeProvider.PlaylistRoute | packages/providers/src/handlers/youtube.handler.ts:38-56 | a playlist URL that is not a video URL gives one track per item that resolved, in order; all items resolved gives all, none gives nothing |
| YoutubeProvider.SearchRoute | packages/providers/src/handlers/youtube.handler.ts:59-76 | when the results' lookups succeed, a search gives the tracks of the first three results, in order |
| YoutubeProvider.AgreesWithBotHandler | packages/providers/src/handlers/youtube.handler.ts:19-79 | the shared handler resolves every query as the bot's own handler does, except a video URL carrying a `list` parameter: there it gives nothing, where the bot's handler gives the playlist's tracks |
| LegacyYoutube.IsPlaylistIff | src/providers/youtube.ts:167-169 | a query is a playlist exactly when `list=` occurs somewhere in it |
| LegacyYoutube.MetadataToTrack | src/providers/youtube.ts:147-159 | a YouTube track whose page and stream URL are the video URL, with the video's top-level title, view count and length, initiated by the message |
| LegacyYoutube.FetchVideoMetadata | src/providers/youtube.ts:47-54 | a track exactly when the basic-info lookup succeeds, and then the track of that information; a failure is swallowed |
| LegacyYoutube.FetchSearchVideo | src/providers/youtube.ts:108-120 | only the first search result is looked up; a failed search looks up the id `unknown`; an empty result list gives nothing |
| LegacyYoutube.FetchHandler | src/providers/youtube.ts:28-39 | it throws exactly for a `list=` query that is not a URL; a query without `list=` gives at most one track, from its own lookup when it starts with `http` and from the search otherwise |
| LegacyYoutube.PlaylistRoute | src/providers/youtube.ts:63-82 | a playlist gives at most one track per listed video, and when every lookup succeeds one per video in playlist order |
| LegacyYoutube.PlaylistFailure | src/providers/youtube.ts:69-71 | a failed playlist request gives an empty track list |
| LegacyYoutube.PlaylistFirst | src/providers/youtube.ts:29-31 | a URL with `list=` anywhere takes the playlist branch, before the `http` test |
| SoundcloudGuard.GuardsExclusive | packages/discord-bot/src/providers/soundcloud/soundcloud.guard.ts:3-13 | no resource passes two of the track, user and playlist guards |
| SoundcloudGuard.ResourceTrack | packages/discord-bot/src/providers/soundcloud/soundcloud.handler.ts:51-63 | a SoundCloud track with the resource's permalink, stream URL, title and artwork, the play count as text and the duration as the text of its milliseconds divided by 1000 |
| SoundcloudGuard.ResourceTrackNumbers | packages/discord-bot/src/providers/soundcloud/soundcloud.handler.ts:58-60 | the mapped view text reads back as the play count, and the duration text as the whole seconds of the duration |
| SoundcloudGuard.ResourceTracks | packages/discord-bot/src/providers/soundcloud/soundcloud.handler.ts:27-29 | one track per resource, each the mapping of the resource at the same place |
| SoundcloudGuard.ResourceTracksSnoc | packages/providers/src/handlers/souncloud.handler.ts:29-31 | mapping one more resource appends exactly its track |
| SoundcloudGuard.ClientStreamURL | packages/providers/src/handlers/souncloud.handler.ts:52-54 | the stream URL is the track's stream URL followed by `?client_id=` and the token |
| SoundcloudHandler.Resolve | packages/discord-bot/src/providers/soundcloud/soundcloud.handler.ts:17-43 | a URL resolving to a track gives that track, to a playlist all of its tracks in order, to anything else nothing; a search gives the first three results in order, at most three, and a failed search nothing |
| SoundcloudHandler.PushAll | packages/discord-bot/src/providers/soundcloud/soundcloud.handler.ts:29 | pushing one by one appends the mapped tracks in order |
| SoundcloudHandler.FetchHandler | packages/discord-bot/src/providers/soundcloud/soundcloud.handler.ts:17-43 | the pushes accumulate exactly the tracks `Resolve` describes |
| SoundcloudProvider.FetchTrack | packages/providers/src/handlers/souncloud.handler.ts:17-44 | the providers package's handler resolves to exactly what the bot's SoundCloud handler resolves to |
| SoundcloudResolver.UserTracks | packages/discord-bot/src/providers/soundcloud.ts:25-31 | a user's tracks are mapped only when the answer for `<permalink>/tracks` is an array, and are nothing otherwise |
| SoundcloudResolver.SearchTracks | packages/discord-bot/src/providers/soundcloud.ts:40-50 | a search queues at most three tracks |
| SoundcloudResolver.FetchHandler | packages/discord-bot/src/providers/soundcloud.ts:18-52 | an unresolved URL gives nothing; a user gives its tracks, a track itself, a playlist its tracks in order, any other kind nothing; a non-URL gives the search's tracks |
| SoundcloudResolver.SearchKeepsTrackKinds | packages/discord-bot/src/providers/soundcloud.ts:46-48 | every searched track is the mapping of some result of kind `track` |
| SoundcloudResolver.SearchAllTracks | packages/discord-bot/src/providers/soundcloud.ts:46-50 | when every result is a track, the first three results are queued in order |
| SoundcloudResolver.SearchNoTracks | packages/discord-bot/src/providers/soundcloud.ts:46-50 | when no result is a track, nothing is queued |
| LegacySoundcloud.LegacyTrack | src/providers/soundcloud.ts:75-87 | as the current mapping, but the duration is the text of the milliseconds |
| LegacySoundcloud.DurationUnits | src/providers/soundcloud.ts:84 | the first bot's duration text reads back as milliseconds and the current one's as whole seconds |
| LegacySoundcloud.LegacyTracks | src/providers/soundcloud.ts:18 | one track per playlist entry, each mapped at the same place |
| LegacySoundcloud.FetchHandler | src/providers/soundcloud.ts:9-24 | a failed resolve gives nothing; a track gives itself, a playlist its tracks in order, anything else nothing |
| LegacySoundcloud.ResolveOnly | src/providers/soundcloud.ts:9-24 | the outcome depends on the resolve answer alone: every query is resolved and none is searched |
| Time.TimeOfDay | packages/discord-bot/src/utils/time.ts:17-19 | setting the seconds from midnight shows the time of day: below a day the value itself, and always less than a day |
| Time.ClockOf | packages/discord-bot/src/utils/time.ts:19-20 | the hour, minute and second fields are in range and add back up to the time of day |
| Time.MomentFormat | packages/discord-bot/src/utils/time.ts:13-20 | text that does not parse, whose set Moment skips, shows `00:` and then the wall clock's second; under an hour five characters `mm:ss`, from an hour on eight characters `HH:mm:ss` |
| Time.ShortRoundTrip | packages/discord-bot/src/utils/time.ts:13-20 | under an hour, the `mm:ss` text reads back as the number of seconds |
| Time.LongRoundTrip | packages/discord-bot/src/utils/time.ts:13-20 | from an hour to the end of the day, the `HH:mm:ss` text reads back as the number of seconds |
| Time.WrapsAfterADay | packages/discord-bot/src/utils/time.ts:19 | a day or more shows only the time of day, still in the long format |
| Time.NegativeWraps | packages/discord-bot/src/utils/time.ts:19 | a negative value counts back from midnight, in the short format |
| Time.FormatsNatText | packages/discord-bot/src/utils/time.ts:8-21 | the decimal text of a whole number of seconds under an hour formats as that many seconds |
| Utils.AgreesOnDecimalText | packages/discord-bot/src/utils.ts:80-87 | on the text of a whole number, the copy without a radix shows what the base-10 version shows |
| Utils.HexTextDiffers | packages/discord-bot/src/utils.ts:81 | `0x1f` is 31 seconds in the copy without a radix and 0 seconds with radix 10 |
| LegacyUtils.DetectOutcomes | src/utils.ts:11 | in the first bot, detection gives `youtube` exactly when the URL contains it, and nothing otherwise |
| LegacyUtils.SecondsToHHMMSS | src/utils.ts:82-89 | text that does not parse, whose set Moment skips, shows midnight, `00:00` |
| LegacyUtils.AlwaysShort | src/utils.ts:82-89 | any number gives `mm:ss` of the time of day's minutes and seconds: the hours never appear |
| LegacyUtils.AgreesUnderAnHour | src/utils.ts:82-89 | under an hour the first bot shows what the current one shows |
| LegacyUtils.UnparsableAgreesOnlyAtSecondZero | src/utils.ts:82-89 | on text that does not parse, the first bot and the current one show the same exactly when the wall clock is at second 0 |
| LegacyUtils.DropsHours | src/utils.ts:82-89 | from an hour to the end of the day the first bot shows the current text without its hours |
| ProviderList.FindProvider | packages/discord-bot/src/utils/providers.ts:14-16 | the first provider of the list whose name occurs in the URL; nothing exactly when no name occurs |
| ProviderList.ProvidersList | packages/discord-bot/src/utils/providers.ts:21-23 | the names of the supported providers, in list order |
| ProviderList.SoundcloudNameIsNotYoutube | packages/discord-bot/src/utils/providers.ts:6 | the name `soundcloud` does not contain `youtube`, so the two names cannot shadow each other that way |
| ProviderList.DetectOutcomes | packages/discord-bot/src/utils/providers.ts:6-16 | `youtube` whenever its name occurs, so it wins when both occur; `soundcloud` when only its name occurs; nothing when neither does |
| ProviderList.DetectAnywhere | packages/discord-bot/src/utils/providers.ts:15 | a provider name occurring at any index of the URL, query string included, is detected |
| ProviderList.ListedNamesDetected | packages/discord-bot/src/utils/providers.ts:6-23 | every listed name is detected as its own provider |
| Tracks.ProviderNameInjective | packages/models/src/providers/Providers.ts:8 | the two provider names are distinct |
| Text.ContainsIff | packages/discord-bot/src/utils/providers.ts:15 | `indexOf(p) > -1` holds exactly when `p` occurs somewhere in the text |
| Text.TrimStart | packages/discord-bot/src/server.ts:34 | the suffix left after the leading white space, which is all white space |
| Text.TrimEnd | packages/discord-bot/src/server.ts:34 | the prefix left before the trailing white space, which is all white space |
| Text.Trim | packages/discord-bot/src/server.ts:34-35 | the trimmed text neither starts nor ends with white space |
| Text.TrimTrimmed | packages/discord-bot/src/server.ts:34-35 | trimming text that is already trimmed changes nothing |
| Text.TrimAfterSpace | packages/discord-bot/src/server.ts:34-35 | white space in front does not change the trimmed text |
| Text.SplitSpaces | packages/discord-bot/src/server.ts:34-35 | splitting on runs of spaces gives at least one piece, and no piece holds a space |
| Text.SplitJoin | packages/discord-bot/src/commands/play.ts:19 | splitting on spaces undoes joining non-empty space-free words with one space |
| Text.ToLower | packages/discord-bot/src/server.ts:37 | lower-casing keeps the length, leaves no ASCII capital and no Kelvin sign, and changes only those characters |
| Text.LowerChar | packages/discord-bot/src/server.ts:37 | an ASCII capital becomes its small letter, the Kelvin sign becomes `k`, and every other character stays |
| Text.KelvinLowersToK | packages/discord-bot/src/server.ts:37 | a command word written with the Kelvin sign, `S\u212AIP`, selects the `skip` command |
| Text.NatToString | packages/discord-bot/src/providers/soundcloud.ts:131 | decimal digits only, without a leading zero except for 0 itself |
| Text.NatToStringValue | packages/discord-bot/src/providers/soundcloud.ts:131 | the digits written denote the number |
| Text.NatToStringInjective | packages/discord-bot/src/providers/soundcloud.ts:131 | distinct numbers have distinct texts |
| Text.ParseIntOfNatText | packages/discord-bot/src/commands/queue.ts:23-24 | `parseInt(text, 10)` reads back a number's text, whatever non-digit follows it |
| Text.ParseIntRoundTrip | packages/discord-bot/src/utils/time.ts:10 | `parseInt(String(n), 10)` is `n` |
| Text.ParseIntAutoOfNatText | packages/discord-bot/src/utils.ts:81 | `parseInt` without a radix reads back a number's text, unless an `x` follows a lone `0` |
| Text.RadixDiffers | packages/discord-bot/src/utils.ts:81 | without a radix `0x1f` is 31; with radix 10 it is 0 |
| Text.MillisTextExact | packages/discord-bot/src/providers/soundcloud.ts:134 | the text of milliseconds divided by 1000 is the whole seconds, then when there is a remainder a point and at most three digits worth that remainder |
| Text.ParseMillisText | packages/discord-bot/src/providers/soundcloud.ts:134 | reading that text back with `parseInt` gives the whole seconds |
| Lists.Take | packages/discord-bot/src/providers/soundcloud/soundcloud.handler.ts:36 | `slice(0, n)` gives the first `n` elements, or all when there are fewer |
| Lists.Filter | packages/discord-bot/src/providers/soundcloud.ts:47 | `filter` keeps only elements that pass, never more than the input |
| Lists.FilterMembers | packages/discord-bot/src/providers/soundcloud.ts:47 | an element is kept exactly when it is in the input and passes |
| Lists.FilterCount | packages/discord-bot/src/commands/leavecleanup.ts:24-28 | every copy of a passing element is kept and every copy of a failing one is dropped |
| Lists.FilterAll | packages/discord-bot/src/providers/soundcloud.ts:47 | when every element passes, all are kept |
| Lists.FilterSubsequence | packages/discord-bot/src/providers/soundcloud.ts:47 | the kept elements stay in their order |
| Lists.Chunk | packages/discord-bot/src/commands/queue.ts:18 | every page is non-empty and holds at most the page size |
| Lists.ChunkCount | packages/discord-bot/src/commands/queue.ts:18 | the fewest pages of the page size that hold the queue; none exactly for an empty queue |
| Lists.ChunkFlatten | packages/discord-bot/src/commands/queue.ts:18 | the pages concatenate back to the queue |
| Lists.ChunkPage | packages/discord-bot/src/commands/queue.ts:18 | page `p` holds the tracks from position `size * p` on, up to `size` of them |
| Lists.UniqByDistinct | packages/discord-bot/src/commands/removedupes.ts:17 | `uniqBy` keeps at most one element per key |
| Lists.UniqBySubsequence | packages/discord-bot/src/commands/removedupes.ts:17 | `uniqBy` keeps elements of the input, in their order |
| Lists.UniqByKeys | packages/discord-bot/src/commands/removedupes.ts:17 | every key of the input is still present |
| Lists.UniqByKeepsFirst | packages/discord-bot/src/commands/removedupes.ts:17 | the first element of each key is kept |
| Lists.UniqByOfDistinct | packages/discord-bot/src/commands/removedupes.ts:17 | a queue without duplicate keys is left as it is |
| Lists.UniqByIdempotent | packages/discord-bot/src/commands/removedupes.ts:17 | removing duplicates twice is removing them once |
| QueuePages.Entries | packages/discord-bot/src/commands/queue.ts:32 | one entry per track of the page, numbered `i + 1 + 10 * (index - 1)`, with the track's title |
| QueuePages.Show | packages/discord-bot/src/commands/queue.ts:15-44 | no tracks exactly for an empty queue; no argument lists page 1; an argument that does not parse, or a page outside 1 to the page count, gets the page-index reply naming the page count; a listed page is the chunk of that index |
| QueuePages.NumberIsQueuePosition | packages/discord-bot/src/commands/queue.ts:18-32 | a listed entry's number is the 1-based queue position of the track it lists |
| QueuePages.PagesCoverQueue | packages/discord-bot/src/commands/queue.ts:18 | the page count is the queue length over ten rounded up, every page holds one to ten tracks, and the pages put together are the queue |
| QueuePages.DefaultFirstPage | packages/discord-bot/src/commands/queue.ts:36-40 | with no argument page 1 is listed, and its first entry is number 1, the head of the queue |
| QueuePages.HexTwo | src/commands/queue.ts:21-22 | the argument `0x2` is 2 without a radix and 0 with radix 10 |
| QueuePages.HexPageArgument | src/commands/queue.ts:21-26 | on a queue of more than ten tracks, `queue 0x2` lists page 2 in the first bot and is refused by the current one |
| QueueCommands.ShuffleCommand | packages/discord-bot/src/commands/shuffle.ts:12-34 | refused exactly when the connection is not speaking, and for a queue of at most one track; otherwise the head stays first and the queue keeps its length and its tracks; no other guild changes |
| QueueCommands.ShuffleKeepsEveryTrack | packages/discord-bot/src/commands/shuffle.ts:26-31 | every track is queued as many times after the shuffle as before |
| QueueCommands.ShuffleByIdentity | packages/discord-bot/src/commands/shuffle.ts:26-31 | a shuffle that keeps the order leaves the queues as they were |
| QueueCommands.Shuffle | packages/discord-bot/src/commands/shuffle.ts:12-34 | the reply and the stored queues are those `ShuffleCommand` gives |
| QueueCommands.RemoveDupesCommand | packages/discord-bot/src/commands/removedupes.ts:10-25 | refused exactly for an empty queue; otherwise the stored queue has one track per stream URL, keeps the order, and loses no stream URL; no other guild changes |
| QueueCommands.RemoveDupesKeepsFirst | packages/discord-bot/src/commands/removedupes.ts:17 | a track whose stream URL no earlier track has is kept |
| QueueCommands.RemoveDupesIdempotent | packages/discord-bot/src/commands/removedupes.ts:17-19 | running the command twice stores what running it once stores |
| QueueCommands.RemoveDupes | packages/discord-bot/src/commands/removedupes.ts:10-25 | the reply and the stored queues are those `RemoveDupesCommand` gives |
| QueueCommands.LeaveCleanupCommand | packages/discord-bot/src/commands/leavecleanup.ts:10-34 | refused exactly without a connection, then for an empty queue; otherwise the tracks queued by a member of the channel stay, in order, each with as many copies as before, and every other track goes; no other guild changes |
| QueueCommands.NobodyLeft | packages/discord-bot/src/commands/leavecleanup.ts:24-28 | when every initiator is still in the channel, the queues stay as they were |
| QueueCommands.LeaveCleanup | packages/discord-bot/src/commands/leavecleanup.ts:10-34 | the reply and the stored queues are those `LeaveCleanupCommand` gives |
| QueueCommands.ClearCommand | packages/discord-bot/src/commands/clear.ts:9-26 | refused exactly for an empty queue; while speaking only the head stays; otherwise the guild's entry is gone; no other guild changes |
| QueueCommands.SpliceOneToEnd | packages/discord-bot/src/commands/clear.ts:18 | removing from index 1 with the queue length as count keeps exactly the head |
| QueueCommands.ClearKeepsCurrent | packages/discord-bot/src/commands/clear.ts:17-25 | after clear the current track is the one that was playing when the connection speaks, and none otherwise |
| QueueCommands.Clear | packages/discord-bot/src/commands/clear.ts:9-26 | the reply and the stored queues are those `ClearCommand` gives |
| VolumeCommand.Execute | packages/discord-bot/src/commands/volume.ts:7-23 | a missing argument, text that does not parse in base 10 and a value outside 0 to 100 are each refused, exactly then, and change nothing; otherwise the guild's volume is set to the value, confirmed exactly when the connection is speaking |
| VolumeCommand.SetsWrittenVolume | packages/discord-bot/src/commands/volume.ts:17-20 | `volume n` for a decimal `n` up to 100 sets a speaking connection's volume to `n` and leaves other guilds alone |
| VolumeCommand.VolumeStaysInRange | packages/discord-bot/src/commands/volume.ts:14-17 | whatever the argument, every connection's volume stays within 0 to 100 |
| VolumeCommand.Volume | packages/discord-bot/src/commands/volume.ts:7-23 | the reply and the new voice state are those `Execute` gives |
| PlayCommand.Joined | packages/discord-bot/src/commands/play.ts:52-58 | after joining, the guild has a connection, and it is not speaking |
| PlayCommand.Execute | packages/discord-bot/src/commands/play.ts:15-70 | each check answers exactly when it fails and the earlier ones pass (connect, speak, voice channel, provider, query length), then a failed join; nothing fetched disconnects and leaves the queue; otherwise the fetched tracks are appended to the guild's queue |
| PlayCommand.ProviderChoice | packages/discord-bot/src/commands/play.ts:19-22 | a non-URL is a YouTube search; a URL is unsupported exactly when it names neither provider, and YouTube when it contains `youtube` |
| PlayCommand.PlaysFirstFetched | packages/discord-bot/src/commands/play.ts:67-68 | into a silent connection and an empty queue the first fetched track starts and all the fetched tracks are queued |
| PlayCommand.NothingFoundDisconnects | packages/discord-bot/src/commands/play.ts:63-64 | when nothing is found the connection is dropped even while it plays another track, and the queue stays as it was |
| PlayCommand.Play | packages/discord-bot/src/commands/play.ts:15-70 | the reply, the queues and the voice state are those `Execute` gives |
| LegacyPlayCommand.Execute | src/commands/play.ts:13-48 | unsupported exactly when no provider is chosen; told to join exactly when the member is not in a channel; a throwing handler queues nothing; otherwise the fetched tracks are appended, even after a failed join, which leaves nothing playing |
| LegacyPlayCommand.QueuedDespiteJoinError | src/commands/play.ts:30-38 | a failed join does not stop the chain: the tracks are appended and nothing plays |
| LegacyPlayCommand.EmptyFetchCreatesEntry | src/commands/play.ts:37 | a fetch that found nothing still creates the guild's empty queue |
| LegacyPlayCommand.FirstPlayKeepsAll | src/commands/play.ts:36-38 | into a new guild with a silent connection the first fetched track plays while the store keeps all of them |
| LegacyPlayCommand.Play | src/commands/play.ts:13-48 | the reply, the queue contents and the voice state are those `Execute` gives, and the store stays well formed |
| LegacyPlayCommand.QueueAndPlay | src/commands/play.ts:43-44 | the fetched tracks are added to the guild's stored queue, the play decision is taken on the head of that queue, and the voice state follows the decision |
| LegacyPlayCommand.AddQueue | src/commands/play.ts:37 | the store gains the fetched tracks, and the array handed back holds the guild's queue but is none of the stored arrays, so shifting it changes no stored queue |
| EntryMaps.LastValue | packages/discord-bot/src/services/prefix.service.ts:30-32 | the value of the last entry for a key, and none exactly when no entry names it |
| EntryMaps.SetAllLookup | packages/discord-bot/src/services/prefix.service.ts:30-32 | after one `set` per entry, a key is present exactly when it was before or an entry names it, the last such entry decides its value, and other keys keep theirs |
| EntryMaps.SetAllSnoc | src/prefixes.ts:9-20 | one more entry at the end is one more `set` |
| PrefixService.Find | packages/discord-bot/src/services/prefix.service.ts:108-109 | the first element that passes, and none exactly when none passes |
| PrefixService.Check | packages/discord-bot/src/services/prefix.service.ts:107-112 | a reserved prefix is reported exactly when it contains the candidate, the default prefix first; `%` exactly when the candidate contains it |
| PrefixService.PiecesOfReservedRefused | packages/discord-bot/src/services/prefix.service.ts:108 | every piece of the default prefix or of `$note`, the empty text included, is refused |
| PrefixService.LoadedPrefix | packages/discord-bot/src/services/prefix.service.ts:25-38 | after a successful load each guild named in the response has the decoded prefix of its last entry, and other guilds are untouched |
| PrefixService.DeleteSettlement | packages/discord-bot/src/services/prefix.service.ts:71-82 | as written, the promise of `delete` never resolves: it rejects exactly when the call fails and stays pending otherwise |
| PrefixService.CorrectedDeleteSettlement | packages/discord-bot/src/services/prefix.service.ts:71-82 | with the success path resolving, the promise always settles, and resolves exactly when the call succeeds |
| PrefixService.PrefixService.constructor | packages/discord-bot/src/services/prefix.service.ts:14-18 | the collection starts empty |
| PrefixService.PrefixService.Get | packages/discord-bot/src/services/prefix.service.ts:89-100 | the guild's custom prefix, present exactly when the guild has one |
| PrefixService.PrefixService.Load | packages/discord-bot/src/services/prefix.service.ts:25-38 | a rejected request rejects and changes nothing; otherwise every entry is decoded and set in turn, then the promise resolves |
| PrefixService.PrefixService.Set | packages/discord-bot/src/services/prefix.service.ts:48-62 | the API gets the encoded prefix; on success the raw prefix is stored and the promise resolves; on failure nothing changes and it rejects |
| PrefixService.PrefixService.Delete | packages/discord-bot/src/services/prefix.service.ts:71-82 | a success removes the guild's prefix and leaves the promise pending; a failure changes nothing and rejects |
| PrefixService.PrefixService.DeleteCorrected | packages/discord-bot/src/services/prefix.service.ts:71-82 | as `Delete`, but a success resolves |
| PrefixCommand.Decide | packages/discord-bot/src/commands/prefix.ts:11-82 | each answer of the ladder is given exactly when its condition holds and the earlier ones do not; a new prefix is set exactly when the owner gives one that passes `check` |
| PrefixCommand.OnlyOwnerChanges | packages/discord-bot/src/commands/prefix.ts:19-28 | someone other than the owner only ever gets an answer |
| PrefixCommand.SetPrefixIsValid | packages/discord-bot/src/commands/prefix.ts:52-82 | a prefix that is set is not empty, not `delete`, contained in no reserved prefix, and free of `%` |
| PrefixCommand.DeleteReply | packages/discord-bot/src/commands/prefix.ts:43-49 | no reply exactly while the promise is pending; the deletion is confirmed exactly when it resolved |
| PrefixCommand.DeleteSuccessUnanswered | packages/discord-bot/src/commands/prefix.ts:43-44 | as written, a successful deletion is never confirmed, while a failed one is reported |
| PrefixCommand.DeleteSuccessAnswered | packages/discord-bot/src/commands/prefix.ts:43-49 | with `delete` resolving, the owner is told the outcome in every case |
| PrefixCommand.Prefix | packages/discord-bot/src/commands/prefix.ts:11-90 | as written: an answer changes nothing; a change replies with its outcome and stores the prefix exactly when the API call succeeded; a failed deletion is answered, a successful one removes the stored prefix and is never answered |
| PrefixCommand.PrefixCorrected | packages/discord-bot/src/commands/prefix.ts:11-90 | with `delete` resolving on success: the same answers and changes, and every deletion is answered with its outcome |
| PrefixCommand.SetAndReply | packages/discord-bot/src/commands/prefix.ts:82-88 | the new prefix is stored and confirmed exactly when the API call succeeded; otherwise the failure is answered and nothing changes |
| LegacyPrefixes.LastValueCopied | src/prefixes.ts:15-17 | skipping the `default` key changes nothing for any other key |
| LegacyPrefixes.LoadedPrefixes | src/prefixes.ts:7-24 | a guild named in the document gets the prefix of its last entry; `default` and unnamed keys keep what they had |
| LegacyPrefixes.LegacyPrefixes.constructor | src/prefixes.ts:5 | the collection starts empty |
| LegacyPrefixes.LegacyPrefixes.LoadPrefixes | src/prefixes.ts:7-24 | every entry but `default` is set in turn, and the promise resolves with this same collection |
| Server.Words | packages/discord-bot/src/server.ts:34-35 | cutting after the prefix always gives at least one token |
| Server.Tokens | packages/discord-bot/src/server.ts:33-35 | without a custom prefix a text starting with `undefined` throws, exactly then; otherwise the tokens after the custom prefix when the text starts with it, else after the default prefix |
| Server.Handle | packages/discord-bot/src/server.ts:20-50 | ignored exactly when no accepted prefix starts the text or a bot wrote it; the crash exactly as `Tokens` says; otherwise the lower-cased first token is unknown, run with the other tokens, or reported as failed, each exactly when its condition holds |
| Server.WordsAfterPrefix | packages/discord-bot/src/server.ts:34-35 | stripping a prefix and the white space after it gives back the words that were joined after it |
| Server.PlainWordsHaveNoSpace | packages/discord-bot/src/server.ts:35 | words without white space contain no space |
| Server.DefaultPrefixRoundTrip | packages/discord-bot/src/server.ts:25-44 | a known command written after the default prefix and a space is run with exactly the words after it |
| Server.CustomPrefixRoundTrip | packages/discord-bot/src/server.ts:25-44 | a known command written after the custom prefix and a space is run with exactly the words after it |
| Server.CustomPrefixShadowsDefault | packages/discord-bot/src/server.ts:33-35 | a custom prefix that begins the default prefix takes over default-prefix messages: the rest of the default prefix becomes the command name |
| LegacyServer.Tokens | src/server.ts:29 | the first bot's cut always gives at least one token |
| LegacyServer.Handle | src/server.ts:24-42 | ignored exactly when the text does not start with `$` or a bot wrote it; it never crashes; otherwise the lower-cased first token is unknown, run, or reported as failed, each exactly when its condition holds |
| LegacyServer.RoundTrip | src/server.ts:24-37 | a known command written right after `$` is run with exactly the words after it |
| LegacyServer.SpaceAfterPrefix | src/server.ts:29-30 | with no second trim, a space after `$` makes the command name empty |
| QueueService.QueueBody | packages/discord-bot/src/services/queue.service.ts:22-26 | the body names the guild and holds one API track per track, each the transformation of the track at the same place |
| QueueService.TagRoundTrip | packages/discord-bot/src/services/queue.service.ts:97 | a user name without `#` and the discriminator can be read back from the tag |
| QueueService.TagAmbiguous | packages/discord-bot/src/services/queue.service.ts:97 | a `#` in a user name lets two different authors share a tag |
| QueueService.TransformKeepsFields | packages/discord-bot/src/services/queue.service.ts:86-99 | two tracks with the same API form agree on every descriptive field and on the initiator's tag |
| QueueService.StreamURLDropped | packages/discord-bot/src/services/queue.service.ts:89-98 | the stream URL never reaches the API |
| Favorites.IndexOfId | packages/rest-api/src/server/favorite/favorite.controller.ts:99 | the index of the first favorite with the id, and -1 exactly when none has it |
| Favorites.FindById | packages/rest-api/src/server/favorite/favorite.controller.ts:20 | the favorite at that first index, and none exactly when no favorite has the id |
| Favorites.Updated | packages/rest-api/src/server/favorite/favorite.controller.ts:91-97 | the seven body fields replace the favorite's, and only its id is kept |
| Favorites.WithFavoriteCreated | packages/rest-api/src/server/favorite/favorite.controller.ts:54-74 | refused exactly when a favorite already has the url; otherwise the list is kept and the new favorite appended |
| Favorites.CreateKeepsUrlsDistinct | packages/rest-api/src/server/favorite/favorite.controller.ts:62-65 | a list without duplicate urls stays without duplicates after `create` |
| Favorites.WithFavoriteUpdated | packages/rest-api/src/server/favorite/favorite.controller.ts:99-105 | not found exactly when no favorite has the loaded id; otherwise only the first favorite with that id is replaced, by the updated one |
| Favorites.UpdateMayDuplicateUrl | packages/rest-api/src/server/favorite/favorite.controller.ts:91-105 | `update` does not check urls, so it can give two favorites the same url |
| Favorites.WithFavoriteRemoved | packages/rest-api/src/server/favorite/favorite.controller.ts:127-133 | not found exactly when no favorite has the loaded id; otherwise the first such favorite alone is taken out, the rest kept in order |
| Favorites.LoadedFavoriteIsEdited | packages/rest-api/src/server/favorite/favorite.controller.ts:17-30 | a favorite `load` found is found again by `update` and `remove`, and `remove` takes out that very favorite |
| Favorites.User.constructor | packages/rest-api/src/server/favorite/favorite.controller.ts:19 | a user document with its id and its favorites |
| Favorites.Load | packages/rest-api/src/server/favorite/favorite.controller.ts:17-30 | an error exactly when there is no user; otherwise the user's first favorite with the id, if any |
| Favorites.Get | packages/rest-api/src/server/favorite/favorite.controller.ts:38-44 | the loaded favorite exactly when one was loaded, else the number 404 as the body |
| Favorites.Create | packages/rest-api/src/server/favorite/favorite.controller.ts:54-77 | 404 without a user; 400 and no change when the url is already a favorite; otherwise the list becomes `WithFavoriteCreated`'s |
| Favorites.Update | packages/rest-api/src/server/favorite/favorite.controller.ts:86-114 | 404 without a user or a loaded favorite, or when its id is no longer found; otherwise the list becomes `WithFavoriteUpdated`'s |
| Favorites.Remove | packages/rest-api/src/server/favorite/favorite.controller.ts:123-142 | the number 404 as the body without a user or a loaded favorite, the status 404 when its id is no longer found; otherwise the list becomes `WithFavoriteRemoved`'s |
| Pagination.ParseParam | packages/rest-api/src/server/guild/guild.controller.ts:130-131 | an absent query parameter parses to `NaN`, as `parseInt(undefined, 10)` does |
| Pagination.GuildWindow | packages/rest-api/src/server/guild/guild.controller.ts:129-142 | with `max=true` the window starts at 0 and takes the document count, or 100 when the count is 0; otherwise a missing or zero limit is 100 and a missing skip 0 |
| Pagination.QueueWindow | packages/rest-api/src/server/queue/queue.controller.ts:67-80 | the same defaults, applied before `max`, so `max=true` takes the document count as it is |
| Pagination.WindowsAgree | packages/rest-api/src/server/queue/queue.controller.ts:67-80 | the guild and queue controllers choose the same window exactly when it is not `max=true` over an empty collection, where one asks for 100 and the other for 0 (no limit) |
| Pagination.DefaultWindow | packages/rest-api/src/server/queue/queue.controller.ts:61 | with no query parameter both controllers ask for at most 100 documents from the first |
| Pagination.WindowOfNumbers | packages/rest-api/src/server/guild/guild.controller.ts:129-142 | decimal numbers written in the query are read back as they are, a zero limit meaning the default 100 |
| Pagination.Page | packages/rest-api/src/server/guild/guild.controller.ts:140-142 | the documents a `find().limit(l).skip(s)` returns: the skip is applied first, a zero limit takes the rest, a negative skip is refused |
| Pagination.MaxIsEverything | packages/rest-api/src/server/guild/guild.controller.ts:135-138 | with `max=true` and an exact document count every document is returned, in order, by both controllers |
| Pagination.DefaultPage | packages/rest-api/src/server/guild/guild.controller.ts:140-142 | without parameters the first hundred guilds, or all of them when there are fewer |
| GuildController.Field | packages/rest-api/src/server/guild/guild.controller.ts:58-62 | a body field is defined exactly when it was sent, with the value sent |
| GuildController.Created | packages/rest-api/src/server/guild/guild.controller.ts:46-70 | a new guild takes the body's id, name, icon, owner and region, links the queue saved before it, and keeps a truthy body prefix or else gets `=note`; its prefix is never empty |
| GuildController.GuildDocument.Create | packages/rest-api/src/server/guild/guild.controller.ts:56-66 | the new document holds exactly the created guild's fields |
| GuildController.Updated | packages/rest-api/src/server/guild/guild.controller.ts:187-219 | name, owner and region are overwritten, icon and prefix only by truthy values, and the Discord id and the queue are kept whatever the body holds |
| GuildController.UpdateIdempotent | packages/rest-api/src/server/guild/guild.controller.ts:199-211 | sending the same update twice changes nothing the second time |
| GuildController.UpdateKeepsPrefix | packages/rest-api/src/server/guild/guild.controller.ts:209-211 | an update can never clear a guild's prefix |
| GuildController.Update | packages/rest-api/src/server/guild/guild.controller.ts:187-219 | without a loaded guild the status 404; otherwise the document's new fields are the updated guild's and it is saved |
| GuildController.PrefixUpdated | packages/rest-api/src/server/guild/guild.controller.ts:233-236 | the stored prefix becomes the body field the update reads (`prefix` as written, `customPrefix` as validated), undefined when that field was not sent, and no other field changes |
| GuildController.BotPrefixDropped | packages/rest-api/src/server/guild/guild.controller.ts:228-244 | the body the bot sends, `{ customPrefix }`, leaves the stored prefix undefined, so the guild loses its custom prefix (a later load would show the schema default `=note`, packages/rest-api/src/server/guild/guild.model.ts:32-36, which is not modelled) |
| GuildController.BotPrefixStored | packages/rest-api/src/server/guild/guild.controller.ts:228-244 | read from `customPrefix`, the field its validator requires, the same body stores the prefix it carries |
| GuildController.UpdatePrefix | packages/rest-api/src/server/guild/guild.controller.ts:228-244 | as written: without a guild 404; otherwise the prefix becomes the body's `prefix` field, defined or not, and nothing else changes |
| GuildController.UpdatePrefixCorrected | packages/rest-api/src/server/guild/guild.controller.ts:228-244 | the same handler reading `customPrefix`: the prefix becomes that field and nothing else changes |
| GuildController.PrefixRemoved | packages/rest-api/src/server/guild/guild.controller.ts:280-292 | removing the prefix sets it back to `=note` and changes no other field |
| GuildController.RemovePrefix | packages/rest-api/src/server/guild/guild.controller.ts:280-292 | without a guild the number 404 as a JSON body; otherwise the guild's prefix is reset and it is saved |
| GuildController.RemoveAfterUpdatePrefix | packages/rest-api/src/server/guild/guild.controller.ts:228-292 | a removal undoes whatever a prefix update stored, whichever body field it read |
| GuildController.CreatedWithoutPrefix | packages/rest-api/src/server/guild/guild.controller.ts:62 | a guild created without a prefix is already in the state a removal produces |
| GuildController.Remove | packages/rest-api/src/server/guild/guild.controller.ts:253-271 | without a guild the number 404; with its queue found the guild is removed and sent back; otherwise an error naming the guild, each exactly in its case |
| GuildController.Load | packages/rest-api/src/server/guild/guild.controller.ts:19-37 | the first stored guild with the Discord id, and none exactly when no stored guild has it |
| GuildController.Get | packages/rest-api/src/server/guild/guild.controller.ts:112-118 | the loaded guild's fields exactly when a guild with an id was loaded, otherwise the status 404 |
| GuildController.GetAll | packages/rest-api/src/server/guild/guild.controller.ts:128-177 | both list handlers return the page of the guild window |
| QueueController.Spliced | packages/rest-api/src/server/queue/queue.controller.ts:98 | `splice(start, deleteCount)` keeps the elements before `start` and shifts the ones after the deleted run down, with the length JavaScript gives |
| QueueController.QueueDocument.Create | packages/rest-api/src/server/queue/queue.controller.ts:35-42 | a new queue for the guild with the body's tracks, or none |
| QueueController.Load | packages/rest-api/src/server/queue/queue.controller.ts:16-26 | the first stored queue of the guild, and none exactly when no stored queue has its id |
| QueueController.Get | packages/rest-api/src/server/queue/queue.controller.ts:50-56 | the loaded queue exactly when one with an id was loaded, otherwise the status 404 |
| QueueController.GetAll | packages/rest-api/src/server/queue/queue.controller.ts:66-83 | the page of the queue window |
| QueueController.Update | packages/rest-api/src/server/queue/queue.controller.ts:92-107 | without a loaded queue the status 404; otherwise the queue then holds exactly the body's tracks, in order |
| ExpressErrors.Pathname | packages/rest-api/src/config/express.ts:28 | the path of a URL is its longest prefix before a `?` or `#` |
| ExpressErrors.QueryDoesNotMatter | packages/rest-api/src/config/express.ts:15-28 | a query string never changes whether a path needs a token |
| ExpressErrors.PathnameOfPlain | packages/rest-api/src/config/express.ts:28 | a path without query or fragment is its own path |
| ExpressErrors.CallbackWithQuery | packages/rest-api/src/config/express.ts:15-28 | the OAuth callback with its `code` query needs no token |
| ExpressErrors.TokenNeeded | packages/rest-api/src/config/express.ts:15-28 | the listed paths match exactly: a trailing slash, or any other API path, needs a token |
| ExpressErrors.NewApiError | packages/rest-api/src/server/helpers/APIError.ts:23-29 | an undefined status becomes 500 and an undefined `isPublic` false; defined ones are kept |
| ExpressErrors.Convert | packages/rest-api/src/config/express.ts:34-52 | a validation error becomes a public error with the joined messages and its status, any other error is wrapped keeping message, status and visibility, an API error passes unchanged |
| ExpressErrors.ConvertIdempotent | packages/rest-api/src/config/express.ts:45-51 | converting an already converted error changes nothing |
| ExpressErrors.WrappingReplacesStack | packages/rest-api/src/config/express.ts:45-49 | a wrapped error keeps its message but carries the converter's stack, not its own |
| ExpressErrors.ValidationMessageMentions | packages/rest-api/src/config/express.ts:36-38 | every message of every failed field appears in the unified message |
| ExpressErrors.JoinOccurs | packages/rest-api/src/config/express.ts:36-38 | each part of a join occurs in it at a known position |
| ExpressErrors.OneValidationMessage | packages/rest-api/src/config/express.ts:36-38 | a single failed field with a single message is shown as it is |
| ExpressErrors.RouteNotFound | packages/rest-api/src/config/express.ts:55-59 | an unanswered route is a private 404 error `API not found` |
| ExpressErrors.Respond | packages/rest-api/src/config/express.ts:62-67 | the response has the error's status, its message when public and the status text otherwise, and the stack exactly in development |
| ExpressErrors.Handle | packages/rest-api/src/config/express.ts:33-67 | an unanswered request goes through the 404 fallback, a raised error through the converter, then both through the handler |
| ExpressErrors.PrivateMessageHidden | packages/rest-api/src/config/express.ts:65 | a private error's message never reaches the client, whatever it says |
| ExpressErrors.UnmatchedShowsStatusText | packages/rest-api/src/config/express.ts:55-65 | the client of an unknown route gets 404 with the status text, not `API not found` |
| ExpressErrors.ValidationShown | packages/rest-api/src/config/express.ts:35-65 | a validation error reaches the client with its full message and own status |
| ExpressErrors.PlainErrorHidden | packages/rest-api/src/config/express.ts:45-65 | a plain error is a 500 whose message the client never sees |
| ExpressErrors.NoStackOutsideDevelopment | packages/rest-api/src/config/express.ts:66 | outside development no stack is ever sent |

## Left out

- Network and HTTP: the YouTube and SoundCloud API clients, the bot's HTTP client and the REST calls of the guild, auth and queue services are left out; their answers are oracle parameters, with `None` standing for a rejection or an empty answer.
- Discord objects: a message is reduced to its guild id and its author (id, user name and discriminator), who is also the guild member; its text is a separate parameter of the handlers; voice connections and dispatchers are reduced to whether they speak and their volume; permissions, voice channels and joining are inputs.
- Rich embeds (`generateRichEmbed`) and sent messages are not built: each reply is a tag carrying the values it would show.
- Asynchronous ordering: promise chains and event callbacks are sequential calls; a promise is modelled by how it settles.
- Floating point: the volume is an integer percent, and the dispatcher's `volume / 100` multiplier is left out. SoundCloud's `duration / 1000` is the exact decimal text of the quotient of whole milliseconds, which is what JavaScript prints for any duration short enough that three decimals are exact in a double.
- Moment: `secondsToHHMMSS` is whole-number clock arithmetic modulo a day; time zones and daylight saving are left out. No Moment version is pinned by the sources; the model follows the setter of Moment 2.19 and later, which skips a `NaN` value, so text that does not parse leaves the second where it was (the wall clock's second, a parameter `now`, for the current bot; midnight's for the first bot, which starts from `startOf('day')`). Earlier Moment releases would give `Invalid date` there instead.
- lodash `shuffle`: its random arrangement is a parameter that preserves the multiset of tracks.
- `encodeURIComponent` and `decodeURIComponent` are parameters of the prefix service; their round trip is assumed by no contract.
- The WHATWG `URL` constructor, `searchParams` and `ytdl-core`'s URL checks are uninterpreted predicates and oracle fields; the first bot's synchronous `URL` throw is kept as `None`.
- YouTube and SoundCloud stream creation (`ytdl` for YouTube; for SoundCloud only the client-id URL is modelled), `loadCommands`, and the `SOUNDCLOUD_TOKEN` and default prefix from the environment, which are parameters.
- A query's length is counted in characters, not UTF-16 code units.
- Dispatch.UndefinedOnlyOnRejection: the resolvers' answers are taken to be well formed; a throw while mapping a malformed answer (a video without `player_response.videoDetails` in packages/discord-bot/src/providers/youtube/youtube.handler.ts:104-106, a search answer that is not an array or a track without `playback_count` in packages/discord-bot/src/providers/soundcloud.ts:47 and :131) rejects the fetch in the code, but is not produced by the modelled resolvers. That rejection path itself is modelled by `Dispatch.HandleProvider(None)` and `ProvidersIndex.HandleProvider(None)`.
- Text.ToLower: maps the ASCII capitals and the Kelvin sign only; every other character whose Unicode lower case differs (`À`, `Σ`, `İ`, ...) is left unchanged. Those lower cases are never pure ASCII, so which ASCII command name a word selects is the same as in JavaScript, but the lowered text of such a word is not.
- `packages/discord-bot/src/prefixes.ts` is not part of this model: it is a separate, older prefix store with its own collection (prefixes.ts:11), its own reserved prefixes `$note` and `$dev` (:12) and its own HTTP calls (`loadPrefixes` :26-39, `setPrefix` :49-66, `deletePrefix` :74-89, the last two of which leave the promise pending when the request fails). It exports `hasPrefix` and `getPrefix`, not the `has` and `get` that packages/discord-bot/src/server.ts:22-23 calls on it; the modelled commands use the prefix service, and `Server` takes the guild's custom prefix as a parameter.
- `packages/discord-bot/src/player/index.ts`, which the commands import as `player`, is not part of this model. The commands call the store's `replaceQueue` with (queue, message), the order `queue.ts` declares, though `shuffle.ts` passes them the other way round.
- MongoDB and Mongoose: saving, populating and their errors are a single `Saved…` reply; `find().limit().skip()` is modelled as MongoDB documents it (`Pagination.Page`); `estimatedDocumentCount` is an exact count given as a parameter.
- The favorites controller copies the request body with a spread; the body is modelled as the seven track fields a favorite stores, and the aliasing between `req.favorite` and the list element it came from is not modelled.
- `createFake` in the guild controller generates random guilds with faker and is left out.
- The joi validators are reduced to the fields they require, as requirements of the handlers; joi's type coercion is left out.
- JWT verification itself: only which paths need a token is modelled. The `http-status` table of status texts and an error's stack trace are parameters.
- Routing: `packages/rest-api/src/index.route.ts` mounts only the heartbeat and auth routers; the guild, queue and favorite controllers are modelled as handlers on their own.
- `GuildController.Remove`: whether the guild's queue is found is a parameter; the removals themselves are part of the `RemovedGuild` reply.

## Findings

| source | as written | input that shows it | evidently intended | confidence | as-written member | corrected member |
|---|---|---|---|---|---|---|
| src/player/player.ts:25-53 | `removeFirstTrack` (src/player/queue.ts:49-58) returns the live stored array and `playTrack` shifts it again, so each advance also removes the new head from the store | a queue of tracks A, B, C, D | every queued track is played once, in order | not executed | LegacyPlayer.FourTracksPlayThree | Player.EndsPlayInOrder |
| packages/discord-bot/src/services/prefix.service.ts:71-82 | the promise of `delete` is rejected on failure but never resolved on success | an owner deleting an existing custom prefix with the API call succeeding | a successful deletion resolves, so the command confirms it | not executed | PrefixService.DeleteSettlement | PrefixService.CorrectedDeleteSettlement |
| packages/rest-api/src/server/guild/guild.controller.ts:233-236 | `updatePrefix` stores the body's `prefix` field, while its validator requires `customPrefix` and the bot sends `{ customPrefix }` | the body `{ "customPrefix": "!" }` | the prefix sent is stored | not executed | GuildController.BotPrefixDropped | GuildController.BotPrefixStored |

## Notes on the code

Where the code and its comments or documentation differ, the model follows the code:

- `addTracks` with no tracks on a guild without a queue creates an empty entry, and `removeTracks` keeps an emptied entry.
- Each `end` event pops exactly one track; nothing guards against a second `end` for the same track.
- The REST API's 404 fallback builds a private error, so the client reads the status text `Not Found`, not `API not found`.
- The queue controller applies the `||` defaults before `max=true` replaces the limit by the count, the guild controller after; they differ for `max=true` over an empty collection.
- `getAllPrefixes` answers with a list of guild objects, not the object of guild id to prefix that its comment and the bot's prefix loader expect.
- In the current bot, for a guild without a custom prefix the message handler tests the text against the string `undefined`; an accepted text that starts with it reads the length of `undefined` and throws.
- A custom prefix that is a proper prefix of the default prefix takes over messages written with the default prefix (`Server.CustomPrefixShadowsDefault`).
