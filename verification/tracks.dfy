/**
 * The records every component exchanges: the Discord message that initiated
 * an action (only the parts the bot reads) and the `Track` a provider
 * resolves a query into.
 */
module Tracks {
  import opened Wrappers

  type GuildId = string
  type UserId = string

  /**
   * A Discord message, reduced to what the bot reads of it: the guild it was
   * sent in and its author (who is also the guild member, `message.member`).
   */
  datatype Message = Message(
    guildId: GuildId,
    authorId: UserId,
    username: string,
    discriminator: string)

  /** The `providers` union type: `'youtube' | 'soundcloud'`. */
  datatype Provider = YouTube | SoundCloud {
    function Name(): (name: string)
      ensures name == "youtube" || name == "soundcloud"
    {
      match this
      case YouTube => "youtube"
      case SoundCloud => "soundcloud"
    }
  }

  /** `Name` tells the two providers apart. */
  lemma ProviderNameInjective(p: Provider, q: Provider)
    requires p.Name() == q.Name()
    ensures p == q
  {
  }

  /** A resolved, playable track; `views` and `duration` are kept as text, as the bot does. */
  datatype Track = Track(
    provider: Provider,
    url: string,
    streamURL: string,
    title: string,
    description: string,
    views: string,
    thumbnailURL: string,
    duration: string,
    initiator: Message)

  /** A readable audio stream, known by the URL it reads from. */
  datatype Readable = Readable(source: string)

  /**
   * `StreamProvider`: how a track is fed to the voice connection, either as
   * a readable stream or as an arbitrary input URL.
   */
  datatype StreamProvider = StreamProvider(stream: Option<Readable>, arbitraryURL: Option<string>)
}
