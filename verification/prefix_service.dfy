/**
 * The custom-prefix service of the current bot
 * (`packages/discord-bot/src/services/prefix.service.ts`): a collection from
 * guild id to the guild's custom prefix, kept in step with the REST API.
 *
 * The API calls are parameters: `getAllPrefixes` is the response it settles
 * to (`None` for a rejection), `updatePrefix` and `deletePrefix` say whether
 * the call for a guild succeeds. `encodeURIComponent` and
 * `decodeURIComponent` are parameters too. A promise the service returns is
 * modelled by how it settles: resolved, rejected, or never settled.
 */
module PrefixService {
  import opened Wrappers
  import opened Tracks
  import opened Text
  import opened EntryMaps

  type Prefixes = map<GuildId, string>

  /** How a returned promise settles. */
  datatype Settlement = Pending | Resolved | Rejected

  /** The reserved prefixes: the bot's default prefix, then `$note`. */
  function ReservedPrefixes(defaultPrefix: string): seq<string> {
    [defaultPrefix, "$note"]
  }

  /** The characters a custom prefix may not contain. */
  const ForbiddenCharacters: seq<string> := ["%"]

  /** `xs.find(p)`: the first element satisfying `p`. */
  function Find(xs: seq<string>, p: string -> bool): (r: Option<string>)
    ensures r.None? <==> forall i :: 0 <= i < |xs| ==> !p(xs[i])
    ensures r.Some? ==> r.value in xs && p(r.value)
    ensures xs != [] && p(xs[0]) ==> r == Some(xs[0])
    decreases |xs|
  {
    if xs == [] then None
    else if p(xs[0]) then Some(xs[0])
    else Find(xs[1..], p)
  }

  /** What `check` answers. */
  datatype CheckResult = CheckResult(unauthorizedPrefix: Option<string>, unauthorizedCharacter: Option<string>)

  /**
   * `check(prefix)`: the first reserved prefix that CONTAINS the candidate
   * (so every piece of a reserved prefix is refused, the empty string
   * included), and the first forbidden character the candidate contains.
   */
  function Check(defaultPrefix: string, prefix: string): (r: CheckResult)
    ensures r.unauthorizedPrefix.Some? <==> Contains(defaultPrefix, prefix) || Contains("$note", prefix)
    ensures r.unauthorizedPrefix.Some? ==>
      r.unauthorizedPrefix.value == (if Contains(defaultPrefix, prefix) then defaultPrefix else "$note")
    ensures r.unauthorizedCharacter.Some? <==> Contains(prefix, "%")
    ensures r.unauthorizedCharacter.Some? ==> r.unauthorizedCharacter.value == "%"
  {
    var reserved := ReservedPrefixes(defaultPrefix);
    var unauthorizedPrefix := Find(reserved, unauth => Contains(unauth, prefix));
    var unauthorizedCharacter := Find(ForbiddenCharacters, unauth => Contains(prefix, unauth));
    assert reserved[0] == defaultPrefix && reserved[1] == "$note";
    CheckResult(unauthorizedPrefix, unauthorizedCharacter)
  }

  /** Every piece of `$note` and of the default prefix is refused, the empty string first of all. */
  lemma PiecesOfReservedRefused(defaultPrefix: string, i: nat, j: nat)
    requires i <= j <= |defaultPrefix|
    ensures Check(defaultPrefix, defaultPrefix[i..j]).unauthorizedPrefix == Some(defaultPrefix)
    ensures Check(defaultPrefix, "").unauthorizedPrefix == Some(defaultPrefix)
    ensures j <= 5 ==> Check(defaultPrefix, "$note"[i..j]).unauthorizedPrefix.Some?
  {
    OccursContains(defaultPrefix, defaultPrefix[i..j], i);
    OccursContains(defaultPrefix, "", 0);
    if j <= 5 {
      OccursContains("$note", "$note"[i..j], i);
    }
  }

  /** A successful `load` gives each guild the decoded prefix of its last entry and leaves other guilds alone. */
  lemma LoadedPrefix(old_: Prefixes, entries: seq<Entry>, decode: string -> string, g: GuildId)
    ensures LastValue(entries, g).Some? ==>
      g in SetAll(old_, entries, decode) && SetAll(old_, entries, decode)[g] == decode(LastValue(entries, g).value)
    ensures LastValue(entries, g).None? ==>
      (g in SetAll(old_, entries, decode) <==> g in old_) &&
      (g in old_ ==> SetAll(old_, entries, decode)[g] == old_[g])
  {
    SetAllLookup(old_, entries, decode, g);
  }

  /** How the promise of `delete` settles, as written: a success deletes the key but never resolves. */
  function DeleteSettlement(apiOk: bool): (s: Settlement)
    ensures s != Resolved
    ensures s == Rejected <==> !apiOk
  {
    if apiOk then Pending else Rejected
  }

  /** How the promise of `delete` settles once the success path resolves, as `set` does. */
  function CorrectedDeleteSettlement(apiOk: bool): (s: Settlement)
    ensures s != Pending
    ensures s == Resolved <==> apiOk
  {
    if apiOk then Resolved else Rejected
  }

  class PrefixService {
    /** The `prefixes` collection: guild id to custom prefix. */
    var prefixes: Prefixes
    /** The bot's default prefix (`config.bot.prefix`). */
    const defaultPrefix: string

    constructor (defaultPrefix: string)
      ensures prefixes == map[] && this.defaultPrefix == defaultPrefix
    {
      prefixes := map[];
      this.defaultPrefix := defaultPrefix;
    }

    /** `has(message)`: whether the message's guild has a custom prefix. */
    function Has(message: Message): bool
      reads this
    {
      message.guildId in prefixes
    }

    /** `get(message)`: the message's guild's custom prefix, `None` when it has none. */
    function Get(message: Message): (r: Option<string>)
      reads this
      ensures r.Some? <==> Has(message)
      ensures r.Some? ==> r.value == prefixes[message.guildId]
    {
      if message.guildId in prefixes then Some(prefixes[message.guildId]) else None
    }

    /**
     * `load()`: on a response, each `[guildID, prefix]` entry is decoded and
     * set in turn, then the collection is resolved; a rejected request
     * rejects and changes nothing.
     */
    method Load(response: Option<seq<Entry>>, decode: string -> string) returns (s: Settlement)
      modifies this
      ensures response.None? ==> s == Rejected && prefixes == old(prefixes)
      ensures response.Some? ==> s == Resolved && prefixes == SetAll(old(prefixes), response.value, decode)
    {
      if response.None? {
        return Rejected;
      }
      var entries := response.value;
      var i := 0;
      while i < |entries|
        invariant 0 <= i <= |entries|
        invariant prefixes == SetAll(old(prefixes), entries[..i], decode)
      {
        var (guildId, prefix) := entries[i];
        SetAllSnoc(old(prefixes), entries[..i], entries[i], decode);
        assert entries[..i + 1] == entries[..i] + [entries[i]];
        prefixes := prefixes[guildId := decode(prefix)];
        i := i + 1;
      }
      assert entries[..i] == entries;
      s := Resolved;
    }

    /**
     * `set(message, prefix)`: the API receives the ENCODED prefix; only once
     * it succeeds is the RAW prefix stored and the promise resolved.
     */
    method Set(message: Message, prefix: string, encode: string -> string, updatePrefix: (GuildId, string) -> bool)
      returns (s: Settlement)
      modifies this
      ensures updatePrefix(message.guildId, encode(prefix)) ==>
        s == Resolved && prefixes == old(prefixes)[message.guildId := prefix]
      ensures !updatePrefix(message.guildId, encode(prefix)) ==> s == Rejected && prefixes == old(prefixes)
    {
      var data := encode(prefix);
      if updatePrefix(message.guildId, data) {
        prefixes := prefixes[message.guildId := prefix];
        s := Resolved;
      } else {
        s := Rejected;
      }
    }

    /** `delete(message)` as written: a success removes the key and returns from the callback without resolving. */
    method Delete(message: Message, deletePrefix: GuildId -> bool) returns (s: Settlement)
      modifies this
      ensures s == DeleteSettlement(deletePrefix(message.guildId))
      ensures deletePrefix(message.guildId) ==> prefixes == old(prefixes) - {message.guildId}
      ensures !deletePrefix(message.guildId) ==> prefixes == old(prefixes)
    {
      if deletePrefix(message.guildId) {
        prefixes := prefixes - {message.guildId};
        s := Pending;
      } else {
        s := Rejected;
      }
    }

    /** `delete(message)` with the success path resolving. */
    method DeleteCorrected(message: Message, deletePrefix: GuildId -> bool) returns (s: Settlement)
      modifies this
      ensures s == CorrectedDeleteSettlement(deletePrefix(message.guildId))
      ensures deletePrefix(message.guildId) ==> prefixes == old(prefixes) - {message.guildId}
      ensures !deletePrefix(message.guildId) ==> prefixes == old(prefixes)
    {
      if deletePrefix(message.guildId) {
        prefixes := prefixes - {message.guildId};
        s := Resolved;
      } else {
        s := Rejected;
      }
    }
  }
}
