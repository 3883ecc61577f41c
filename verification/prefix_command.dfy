/**
 * The `prefix` command of the current bot
 * (`packages/discord-bot/src/commands/prefix.ts`): an early-return ladder
 * deciding, from the guild's custom prefix, whether the sender owns the
 * guild and the first argument, to answer, to delete the custom prefix or
 * to set a new one through the prefix service.
 *
 * JavaScript truthiness is kept: an empty string counts as absent, both for
 * the stored custom prefix and for what `check` found.
 */
module PrefixCommand {
  import opened Wrappers
  import opened Tracks
  import opened Text
  import opened PrefixService

  datatype PrefixReply =
    | CurrentPrefix(prefix: string)                          // someone else than the owner, a custom prefix exists
    | OwnerOnly                                              // someone else than the owner
    | NoCustomPrefix                                         // `delete` with nothing to delete
    | MissingPrefix                                          // no new prefix given
    | UnauthorizedPrefix(prefix: string)                     // a piece of a reserved prefix
    | UnauthorizedCharacter(prefix: string, character: string)
    | Deleted
    | DeleteFailed
    | Changed(prefix: string)
    | ChangeFailed

  /** What the ladder decides before any call to the service. */
  datatype Action = Answer(reply: PrefixReply) | DeletePrefix | SetPrefix(prefix: string)

  /** A JavaScript value that is neither `undefined` nor the empty string. */
  predicate Truthy(s: Option<string>) {
    s.Some? && s.value != ""
  }

  /** `args[0] === 'delete'`. */
  predicate DeleteMode(args: seq<string>) {
    |args| > 0 && args[0] == "delete"
  }

  /** `!args[0]`: no first argument, or an empty one. */
  predicate NoNewPrefix(args: seq<string>) {
    |args| == 0 || args[0] == ""
  }

  /** The ladder, given the stored custom prefix and whether the sender owns the guild. */
  function Decide(defaultPrefix: string, customPrefix: Option<string>, isOwner: bool, args: seq<string>): (a: Action)
    ensures a == Answer(CurrentPrefix(customPrefix.GetOr(""))) <==> Truthy(customPrefix) && !isOwner
    ensures a == Answer(OwnerOnly) <==> !Truthy(customPrefix) && !isOwner
    ensures a == Answer(NoCustomPrefix) <==> isOwner && DeleteMode(args) && !Truthy(customPrefix)
    ensures a == DeletePrefix <==> isOwner && DeleteMode(args) && Truthy(customPrefix)
    ensures a == Answer(MissingPrefix) <==> isOwner && !DeleteMode(args) && NoNewPrefix(args)
    ensures a.Answer? && a.reply.UnauthorizedPrefix? <==>
      isOwner && !DeleteMode(args) && !NoNewPrefix(args) && Truthy(Check(defaultPrefix, args[0]).unauthorizedPrefix)
    ensures a.Answer? && a.reply.UnauthorizedCharacter? <==>
      isOwner && !DeleteMode(args) && !NoNewPrefix(args) && !Truthy(Check(defaultPrefix, args[0]).unauthorizedPrefix) &&
      Truthy(Check(defaultPrefix, args[0]).unauthorizedCharacter)
    ensures a.Answer? && a.reply.UnauthorizedCharacter? ==> a.reply.character == "%"
    ensures a.SetPrefix? <==>
      isOwner && !DeleteMode(args) && !NoNewPrefix(args) && !Truthy(Check(defaultPrefix, args[0]).unauthorizedPrefix) &&
      !Truthy(Check(defaultPrefix, args[0]).unauthorizedCharacter)
    ensures a.SetPrefix? ==> a.prefix == args[0]
    ensures a.Answer? ==> !a.reply.Deleted? && !a.reply.DeleteFailed? && !a.reply.Changed? && !a.reply.ChangeFailed?
  {
    var deleteMode := DeleteMode(args);
    if Truthy(customPrefix) && !isOwner then Answer(CurrentPrefix(customPrefix.value))
    else if !isOwner then Answer(OwnerOnly)
    else if deleteMode && !Truthy(customPrefix) then Answer(NoCustomPrefix)
    else if deleteMode && Truthy(customPrefix) then DeletePrefix
    else if NoNewPrefix(args) then Answer(MissingPrefix)
    else
      var newPrefix := args[0];
      var valid := Check(defaultPrefix, newPrefix);
      if Truthy(valid.unauthorizedPrefix) then Answer(UnauthorizedPrefix(newPrefix))
      else if Truthy(valid.unauthorizedCharacter) then Answer(UnauthorizedCharacter(newPrefix, valid.unauthorizedCharacter.value))
      else SetPrefix(newPrefix)
  }

  /** Only the guild owner ever reaches the service. */
  lemma OnlyOwnerChanges(defaultPrefix: string, customPrefix: Option<string>, args: seq<string>)
    ensures Decide(defaultPrefix, customPrefix, false, args).Answer?
  {
  }

  /**
   * A prefix the command sets passes `check` outright (nothing reserved
   * contains it, it has no `%`), is not empty, and is never the literal
   * `delete`, which always means deletion.
   */
  lemma SetPrefixIsValid(defaultPrefix: string, customPrefix: Option<string>, isOwner: bool, args: seq<string>)
    requires Decide(defaultPrefix, customPrefix, isOwner, args).SetPrefix?
    ensures var p := Decide(defaultPrefix, customPrefix, isOwner, args).prefix;
      p != "" && p != "delete" &&
      Check(defaultPrefix, p) == CheckResult(None, None) &&
      !Contains(defaultPrefix, p) && !Contains("$note", p) && !Contains(p, "%")
  {
    var p := args[0];
    assert !Contains("", p);
  }

  /** What the sender is told once the service's `delete` promise settles: nothing while it is pending. */
  function DeleteReply(s: Settlement): (r: Option<PrefixReply>)
    ensures r.None? <==> s == Pending
    ensures r == Some(Deleted) <==> s == Resolved
  {
    match s
    case Pending => None
    case Resolved => Some(Deleted)
    case Rejected => Some(DeleteFailed)
  }

  /** As written, a successful deletion is never confirmed: the promise it waits on does not settle. */
  lemma DeleteSuccessUnanswered()
    ensures DeleteReply(DeleteSettlement(true)) == None
    ensures DeleteReply(DeleteSettlement(false)) == Some(DeleteFailed)
  {
  }

  /** With `delete` resolving, the owner is told exactly when the deletion succeeded. */
  lemma DeleteSuccessAnswered(apiOk: bool)
    ensures DeleteReply(CorrectedDeleteSettlement(apiOk)) == Some(if apiOk then Deleted else DeleteFailed)
  {
  }

  /**
   * The command against the prefix service, as written: a successful
   * deletion leaves the service's promise pending, so the owner is never
   * told. Every reply is sent at most once; `None` is a command that never
   * answers.
   */
  method Prefix(service: PrefixService, message: Message, ownerId: UserId, args: seq<string>,
                encode: string -> string, updatePrefix: (GuildId, string) -> bool, deletePrefix: GuildId -> bool)
    returns (reply: Option<PrefixReply>)
    modifies service
    ensures var a := Decide(service.defaultPrefix, old(service.Get(message)), message.authorId == ownerId, args);
      var g := message.guildId;
      (a.Answer? ==> reply == Some(a.reply) && service.prefixes == old(service.prefixes)) &&
      (a == DeletePrefix ==>
        reply == DeleteReply(DeleteSettlement(deletePrefix(g))) &&
        reply == (if deletePrefix(g) then None else Some(DeleteFailed)) &&
        service.prefixes == (if deletePrefix(g) then old(service.prefixes) - {g} else old(service.prefixes))) &&
      (a.SetPrefix? ==>
        reply == Some(if updatePrefix(g, encode(a.prefix)) then Changed(a.prefix) else ChangeFailed) &&
        service.prefixes == (if updatePrefix(g, encode(a.prefix)) then old(service.prefixes)[g := a.prefix] else old(service.prefixes)))
  {
    var customPrefix := service.Get(message);
    var action := Decide(service.defaultPrefix, customPrefix, message.authorId == ownerId, args);
    match action
    case Answer(r) =>
      reply := Some(r);
    case DeletePrefix =>
      var s := service.Delete(message, deletePrefix);
      reply := DeleteReply(s);
      DeleteSuccessUnanswered();
    case SetPrefix(p) =>
      reply := SetAndReply(service, message, p, encode, updatePrefix);
  }

  /** The same command with the service's `delete` resolving on success: every deletion is answered. */
  method PrefixCorrected(service: PrefixService, message: Message, ownerId: UserId, args: seq<string>,
                         encode: string -> string, updatePrefix: (GuildId, string) -> bool, deletePrefix: GuildId -> bool)
    returns (reply: Option<PrefixReply>)
    modifies service
    ensures var a := Decide(service.defaultPrefix, old(service.Get(message)), message.authorId == ownerId, args);
      var g := message.guildId;
      (a.Answer? ==> reply == Some(a.reply) && service.prefixes == old(service.prefixes)) &&
      (a == DeletePrefix ==>
        reply == DeleteReply(CorrectedDeleteSettlement(deletePrefix(g))) &&
        reply == Some(if deletePrefix(g) then Deleted else DeleteFailed) &&
        service.prefixes == (if deletePrefix(g) then old(service.prefixes) - {g} else old(service.prefixes))) &&
      (a.SetPrefix? ==>
        reply == Some(if updatePrefix(g, encode(a.prefix)) then Changed(a.prefix) else ChangeFailed) &&
        service.prefixes == (if updatePrefix(g, encode(a.prefix)) then old(service.prefixes)[g := a.prefix] else old(service.prefixes)))
  {
    var customPrefix := service.Get(message);
    var action := Decide(service.defaultPrefix, customPrefix, message.authorId == ownerId, args);
    match action
    case Answer(r) =>
      reply := Some(r);
    case DeletePrefix =>
      var s := service.DeleteCorrected(message, deletePrefix);
      reply := DeleteReply(s);
      DeleteSuccessAnswered(deletePrefix(message.guildId));
    case SetPrefix(p) =>
      reply := SetAndReply(service, message, p, encode, updatePrefix);
  }

  /** `prefixesService.set(message, newPrefix)` and the answer once it settles. */
  method SetAndReply(service: PrefixService, message: Message, p: string,
                     encode: string -> string, updatePrefix: (GuildId, string) -> bool)
    returns (reply: Option<PrefixReply>)
    modifies service
    ensures var g := message.guildId;
      reply == Some(if updatePrefix(g, encode(p)) then Changed(p) else ChangeFailed) &&
      service.prefixes == (if updatePrefix(g, encode(p)) then old(service.prefixes)[g := p] else old(service.prefixes))
  {
    var s := service.Set(message, p, encode, updatePrefix);
    reply := Some(if s == Resolved then Changed(p) else ChangeFailed);
  }
}
