/**
 * The queue service of the current bot
 * (`packages/discord-bot/src/services/queue.service.ts`): the request bodies
 * it sends to the REST API for a guild's queue. Each track is transformed
 * into the API's track format; the HTTP calls themselves are not part of
 * this model.
 */
module QueueService {
  import opened Wrappers
  import opened Tracks

  /** The API's track format: the provider by name, and the initiator as `username#discriminator`. */
  datatype QueueTrack = QueueTrack(
    provider: string,
    url: string,
    title: string,
    description: string,
    views: string,
    thumbnailURL: string,
    duration: string,
    initiator: string)

  /** The body of `create` and `update`. */
  datatype Queue = Queue(guildId: GuildId, tracks: seq<QueueTrack>)

  /** `${author.username}#${author.discriminator}`. */
  function InitiatorTag(m: Message): string {
    m.username + "#" + m.discriminator
  }

  /** `transformTrack(track)`: the descriptive fields are copied, the stream URL is dropped. */
  function TransformTrack(t: Track): QueueTrack {
    QueueTrack(t.provider.Name(), t.url, t.title, t.description, t.views, t.thumbnailURL, t.duration, InitiatorTag(t.initiator))
  }

  /** The body `create` and `update` both send: every track transformed, in order. */
  function QueueBody(guildId: GuildId, tracks: seq<Track>): (q: Queue)
    ensures q.guildId == guildId && |q.tracks| == |tracks|
    ensures forall i :: 0 <= i < |tracks| ==> q.tracks[i] == TransformTrack(tracks[i])
  {
    Queue(guildId, seq(|tracks|, i requires 0 <= i < |tracks| => TransformTrack(tracks[i])))
  }

  /** The part of an initiator tag before its first `#`, and the part after it. */
  function SplitTag(tag: string): (string, string)
    decreases |tag|
  {
    if tag == [] then ("", "")
    else if tag[0] == '#' then ("", tag[1..])
    else
      var rest := SplitTag(tag[1..]);
      ([tag[0]] + rest.0, rest.1)
  }

  /** A user name without `#` can be read back from the tag, and so can the discriminator. */
  lemma {:induction false} TagRoundTrip(username: string, discriminator: string)
    requires '#' !in username
    ensures SplitTag(username + "#" + discriminator) == (username, discriminator)
    decreases |username|
  {
    var tag := username + "#" + discriminator;
    if username == [] {
      assert tag == "#" + discriminator;
    } else {
      assert tag[1..] == username[1..] + "#" + discriminator;
      TagRoundTrip(username[1..], discriminator);
      assert [username[0]] + username[1..] == username;
    }
  }

  /** A `#` in a user name makes two different authors share a tag. */
  lemma TagAmbiguous()
    ensures InitiatorTag(Message("g", "1", "a#b", "c")) == InitiatorTag(Message("g", "2", "a", "b#c"))
  {
  }

  /**
   * The transformation keeps everything the API stores: two tracks with the
   * same API form agree on every descriptive field; they may differ in
   * stream URL and in who added them beyond the tag.
   */
  lemma TransformKeepsFields(a: Track, b: Track)
    requires TransformTrack(a) == TransformTrack(b)
    ensures a.provider == b.provider && a.url == b.url && a.title == b.title && a.description == b.description
    ensures a.views == b.views && a.thumbnailURL == b.thumbnailURL && a.duration == b.duration
    ensures InitiatorTag(a.initiator) == InitiatorTag(b.initiator)
  {
    ProviderNameInjective(a.provider, b.provider);
  }

  /** The stream URL never reaches the API. */
  lemma StreamURLDropped(t: Track, streamURL: string)
    ensures TransformTrack(t.(streamURL := streamURL)) == TransformTrack(t)
  {
  }
}
