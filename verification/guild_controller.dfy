/**
 * The guild controller of the REST API
 * (`packages/rest-api/src/server/guild/guild.controller.ts`): a guild
 * document is loaded by its Discord id, and the handlers overwrite its
 * fields in place before saving it.
 *
 * A request body is a map from field names to the strings sent; a field
 * that was not sent is absent. The guild preloaded by `load` (`req.guild`)
 * is a nullable `GuildDocument`. Saving, and the reply that follows it, is
 * the `SavedGuild` reply; the ids MongoDB assigns and whether the guild's
 * queue is found are parameters.
 */
module GuildController {
  import opened Wrappers
  import Pagination

  type Body = map<string, string>

  /** `req.body[key]`. */
  function Field(body: Body, key: string): (r: Option<string>)
    ensures r.Some? <==> key in body
    ensures r.Some? ==> r.value == body[key]
  {
    if key in body then Some(body[key]) else None
  }

  /** A JavaScript string value is truthy when it is defined and not empty. */
  predicate Truthy(v: Option<string>) {
    v.Some? && v.value != ""
  }

  /** The prefix a guild gets when none is given, and gets back when its prefix is removed. */
  const DefaultPrefix: string := "=note"

  const NotFound: nat := 404

  /** The fields the `create` and `update` validators require. */
  predicate Validated(body: Body) {
    "guildID" in body && "name" in body && "ownerID" in body && "region" in body
  }

  /** The stored fields of a guild document. */
  datatype GuildData = GuildData(
    guildId: string,
    name: string,
    iconURL: Option<string>,
    ownerId: string,
    region: string,
    prefix: Option<string>,
    queue: string)

  /** What a handler answers. */
  datatype Reply =
    | SavedGuild                     // the guild document is saved and sent back
    | GuildJson(guild: GuildData)
    | RemovedGuild(guild: GuildData) // the queue and then the guild are removed; the guild is sent back
    | StatusOnly(code: nat)          // `res.sendStatus(code)`
    | NumberJson(n: nat)             // `res.json(code)`: a 200 response whose body is the number
    | Failed(message: string)        // `next(new Error(message))`

  /** `create`: the fields of the body, the default prefix unless a truthy one is sent, and the new queue. */
  function Created(body: Body, queueId: string): (g: GuildData)
    requires Validated(body)
    ensures g.guildId == body["guildID"] && g.name == body["name"] && g.ownerId == body["ownerID"] && g.region == body["region"]
    ensures g.iconURL == Field(body, "iconURL")
    ensures g.queue == queueId
    ensures g.prefix.Some? && g.prefix.value != ""
    ensures Truthy(Field(body, "prefix")) ==> g.prefix == Field(body, "prefix")
    ensures !Truthy(Field(body, "prefix")) ==> g.prefix == Some(DefaultPrefix)
  {
    var prefix := Field(body, "prefix");
    GuildData(body["guildID"], body["name"], Field(body, "iconURL"), body["ownerID"], body["region"],
              Some(if Truthy(prefix) then prefix.value else DefaultPrefix), queueId)
  }

  /**
   * `update`: name, owner and region are always overwritten, the icon and
   * the prefix only by a truthy value; the Discord id and the queue are
   * never touched, whatever the body says.
   */
  function Updated(g: GuildData, body: Body): (r: GuildData)
    requires Validated(body)
    ensures r.guildId == g.guildId && r.queue == g.queue
    ensures r.name == body["name"] && r.ownerId == body["ownerID"] && r.region == body["region"]
    ensures Truthy(Field(body, "iconURL")) ==> r.iconURL == Field(body, "iconURL")
    ensures !Truthy(Field(body, "iconURL")) ==> r.iconURL == g.iconURL
    ensures Truthy(Field(body, "prefix")) ==> r.prefix == Field(body, "prefix")
    ensures !Truthy(Field(body, "prefix")) ==> r.prefix == g.prefix
  {
    var iconURL := Field(body, "iconURL");
    var prefix := Field(body, "prefix");
    g.(name := body["name"], ownerId := body["ownerID"], region := body["region"],
       iconURL := if Truthy(iconURL) then iconURL else g.iconURL,
       prefix := if Truthy(prefix) then prefix else g.prefix)
  }

  /** Sending the same update twice changes nothing the second time. */
  lemma UpdateIdempotent(g: GuildData, body: Body)
    requires Validated(body)
    ensures Updated(Updated(g, body), body) == Updated(g, body)
  {
  }

  /** An update cannot clear a prefix: a guild with a truthy prefix keeps one. */
  lemma UpdateKeepsPrefix(g: GuildData, body: Body)
    requires Validated(body) && Truthy(g.prefix)
    ensures Truthy(Updated(g, body).prefix)
  {
  }

  /** The body field `updatePrefix` reads, as written. */
  const WrittenPrefixKey: string := "prefix"

  /** The body field its validator requires and the bot sends. */
  const ValidatedPrefixKey: string := "customPrefix"

  /** `updatePrefix` reading the body field `key`: the prefix becomes that field, absent or not, and nothing else changes. */
  function PrefixUpdated(g: GuildData, body: Body, key: string): (r: GuildData)
    ensures r.prefix == Field(body, key)
    ensures r.(prefix := g.prefix) == g
  {
    g.(prefix := Field(body, key))
  }

  /**
   * The body the bot sends (`{ customPrefix }`), which is the one the
   * validator lets through, clears the stored prefix instead of setting it.
   */
  lemma BotPrefixDropped(g: GuildData, customPrefix: string)
    ensures PrefixUpdated(g, map[ValidatedPrefixKey := customPrefix], WrittenPrefixKey).prefix == None
  {
    assert WrittenPrefixKey != ValidatedPrefixKey;
  }

  /** Read from the right field, the same body sets the prefix it carries. */
  lemma BotPrefixStored(g: GuildData, customPrefix: string)
    ensures PrefixUpdated(g, map[ValidatedPrefixKey := customPrefix], ValidatedPrefixKey).prefix == Some(customPrefix)
  {
  }

  /** `removePrefix`: the prefix is set back to the default. */
  function PrefixRemoved(g: GuildData): (r: GuildData)
    ensures r.prefix == Some(DefaultPrefix)
    ensures r.(prefix := g.prefix) == g
  {
    g.(prefix := Some(DefaultPrefix))
  }

  /** Removing the prefix undoes any prefix update and leaves the guild as `create` would without a prefix. */
  lemma RemoveAfterUpdatePrefix(g: GuildData, body: Body, key: string)
    ensures PrefixRemoved(PrefixUpdated(g, body, key)) == PrefixRemoved(g)
  {
  }

  /** A created guild without a prefix is already in the removed-prefix state. */
  lemma CreatedWithoutPrefix(body: Body, queueId: string)
    requires Validated(body) && !Truthy(Field(body, "prefix"))
    ensures PrefixRemoved(Created(body, queueId)) == Created(body, queueId)
  {
  }

  /** The message `remove` passes on when the guild has no queue. */
  function MissingQueueMessage(guildId: string): string {
    "Unable to find a queue reference for the guild " + guildId
  }

  /** A guild document, as loaded into `req.guild`. */
  class GuildDocument {
    const id: string
    var guildId: string
    var name: string
    var iconURL: Option<string>
    var ownerId: string
    var region: string
    var prefix: Option<string>
    var queue: string

    /** `create`: the new document, linked to the queue saved just before it. */
    constructor Create(id: string, body: Body, queueId: string)
      requires Validated(body)
      ensures this.id == id && Data() == Created(body, queueId)
    {
      var g := Created(body, queueId);
      this.id := id;
      guildId := g.guildId;
      name := g.name;
      iconURL := g.iconURL;
      ownerId := g.ownerId;
      region := g.region;
      prefix := g.prefix;
      queue := g.queue;
    }

    /** The stored fields. */
    function Data(): GuildData
      reads this
    {
      GuildData(guildId, name, iconURL, ownerId, region, prefix, queue)
    }
  }

  /** `req.guild && req.guild._id`. */
  predicate HasGuild(guild: GuildDocument?) {
    guild != null && guild.id != ""
  }

  /** `load`: `GuildModel.findOne({ guildID })`, the first stored guild with that Discord id. */
  function Load(guilds: seq<GuildDocument>, guildId: string): (r: GuildDocument?)
    reads guilds
    ensures r == null <==> forall i :: 0 <= i < |guilds| ==> guilds[i].guildId != guildId
    ensures r != null ==> r in guilds && r.guildId == guildId
    ensures guilds != [] && guilds[0].guildId == guildId ==> r == guilds[0]
    decreases |guilds|
  {
    if guilds == [] then null
    else if guilds[0].guildId == guildId then guilds[0]
    else Load(guilds[1..], guildId)
  }

  /** `get`: the loaded guild, or the status 404. */
  function Get(guild: GuildDocument?): (r: Reply)
    reads guild
    ensures r.GuildJson? <==> HasGuild(guild)
    ensures r.GuildJson? ==> r.guild == guild.Data()
    ensures !r.GuildJson? ==> r == StatusOnly(NotFound)
  {
    if guild != null && guild.id != "" then GuildJson(guild.Data()) else StatusOnly(NotFound)
  }

  /** `getAll` and `getAllPrefixes`: the pagination object is built, then overwritten when `max` is set. */
  method GetAll<T>(docs: seq<T>, q: Pagination.Query, count: nat) returns (r: Option<seq<T>>)
    ensures r == Pagination.Page(docs, Pagination.GuildWindow(q, count))
  {
    var limit := Pagination.ParseParam(q.limit);
    var skip := Pagination.ParseParam(q.skip);
    var max := q.max == Some("true");
    if max {
      limit := Some(count);
      skip := Some(0);
    }
    r := Pagination.Page(docs, Pagination.Window(Pagination.OrElse(limit, 100), Pagination.OrElse(skip, 0)));
  }

  /** `update`. */
  method Update(guild: GuildDocument?, body: Body) returns (reply: Reply)
    requires Validated(body)
    modifies guild
    ensures !HasGuild(guild) ==> reply == StatusOnly(NotFound)
    ensures HasGuild(guild) ==> reply == SavedGuild && guild.Data() == Updated(old(guild.Data()), body)
  {
    if guild == null || guild.id == "" {
      return StatusOnly(NotFound);
    }
    guild.name := body["name"];
    guild.ownerId := body["ownerID"];
    guild.region := body["region"];
    var iconURL := Field(body, "iconURL");
    if iconURL.Some? && iconURL.value != "" {
      guild.iconURL := iconURL;
    }
    var prefix := Field(body, "prefix");
    if prefix.Some? && prefix.value != "" {
      guild.prefix := prefix;
    }
    reply := SavedGuild;
  }

  /** `updatePrefix` as written, reading the body's `prefix` field. */
  method UpdatePrefix(guild: GuildDocument?, body: Body) returns (reply: Reply)
    modifies guild
    ensures !HasGuild(guild) ==> reply == StatusOnly(NotFound)
    ensures HasGuild(guild) ==> reply == SavedGuild && guild.Data() == PrefixUpdated(old(guild.Data()), body, WrittenPrefixKey)
  {
    if guild == null || guild.id == "" {
      return StatusOnly(NotFound);
    }
    guild.prefix := Field(body, WrittenPrefixKey);
    reply := SavedGuild;
  }

  /** `updatePrefix` reading `customPrefix`, the field its validator requires. */
  method UpdatePrefixCorrected(guild: GuildDocument?, body: Body) returns (reply: Reply)
    modifies guild
    ensures !HasGuild(guild) ==> reply == StatusOnly(NotFound)
    ensures HasGuild(guild) ==> reply == SavedGuild && guild.Data() == PrefixUpdated(old(guild.Data()), body, ValidatedPrefixKey)
  {
    if guild == null || guild.id == "" {
      return StatusOnly(NotFound);
    }
    guild.prefix := Field(body, ValidatedPrefixKey);
    reply := SavedGuild;
  }

  /** `removePrefix`: the default prefix again, or the number 404 as a JSON body. */
  method RemovePrefix(guild: GuildDocument?) returns (reply: Reply)
    modifies guild
    ensures !HasGuild(guild) ==> reply == NumberJson(NotFound)
    ensures HasGuild(guild) ==> reply == SavedGuild && guild.Data() == PrefixRemoved(old(guild.Data()))
  {
    if guild == null || guild.id == "" {
      return NumberJson(NotFound);
    }
    guild.prefix := Some(DefaultPrefix);
    reply := SavedGuild;
  }

  /**
   * `remove`: with the guild's queue found, the queue and then the guild are
   * removed and the guild is sent back; without it, an error naming the
   * guild; without a loaded guild, the number 404 as a JSON body.
   */
  function Remove(guild: GuildDocument?, queueFound: bool): (r: Reply)
    reads guild
    ensures !HasGuild(guild) <==> r == NumberJson(NotFound)
    ensures HasGuild(guild) && queueFound <==> r.RemovedGuild?
    ensures r.RemovedGuild? ==> r.guild == guild.Data()
    ensures HasGuild(guild) && !queueFound <==> r.Failed?
    ensures r.Failed? ==> r.message == MissingQueueMessage(guild.guildId)
  {
    if guild == null || guild.id == "" then NumberJson(NotFound)
    else if queueFound then RemovedGuild(guild.Data())
    else Failed(MissingQueueMessage(guild.guildId))
  }
}
