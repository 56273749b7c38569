/** The message pipeline of `bot/message.go`: a chain of checks with early
    returns that ends, at most, in one command handler. Its effects (replies,
    help cards, deleting the author's message) are returned as an outcome;
    the command registry, the stored guild state and the Discord guild are
    inputs, and the permission decision is `Acl.CheckDecision`. */
module BotMessage {
  import opened Wrappers
  import opened GoStrings
  import Acl
  import opened Commands

  /** A message as the pipeline reads it. */
  datatype Incoming = Incoming(
    content: string, guildID: string, channelID: string,
    authorID: string, authorBot: bool, memberRoles: seq<string>)

  /** The world the pipeline consults: the prefix, the bot's own user ID,
      the commands by name and alias, and the two lookups the permission
      check makes. */
  datatype Env = Env(
    prefix: string, selfID: string, registry: map<string, BaseCommand>,
    state: Result<Acl.Settings, string>, guild: Result<Acl.Guild, string>)

  datatype Outcome =
    | Ignored
    | Malformed
    | GlobalHelp
    | CommandHelp(name: string)
    | UnknownCommand
    | DMRefused
    | AclFailed(err: string)
    | Denied(channelRestriction: int, roleRestriction: int)
    | MissingArgs(text: string)
    | Ran(command: BaseCommand, args: seq<string>)

  /** The outcome and whether the author's message is deleted. */
  datatype Handled = Handled(outcome: Outcome, deleted: bool)

  predicate InitialCheck(env: Env, m: Incoming)
  {
    HasPrefix(m.content, env.prefix) && m.authorID != env.selfID && !m.authorBot
  }

  function AclMessage(m: Incoming): Acl.Message
  {
    Acl.Message(m.guildID, m.channelID, m.authorID, m.memberRoles)
  }

  function MissingArgsText(env: Env, c: BaseCommand): string
  {
    "The `" + c.help.usage + "` command requires additional arguments.\nType `" +
    env.prefix + " help " + c.help.usage + "` to view this command's help page"
  }

  /** MessageCreatedHandler. */
  function Handle(env: Env, m: Incoming): Handled
  {
    if !InitialCheck(env, m) then Handled(Ignored, false)
    else
      var fields := Fields(m.content);
      if |fields| < 2 then Handled(Malformed, true)
      else
        var args := fields[2..];
        if fields[1] == "help" || fields[1] == "h" then
          Handled(if |args| < 1 then GlobalHelp else CommandHelp(args[0]), true)
        else if fields[1] !in env.registry then Handled(UnknownCommand, true)
        else
          var c := env.registry[fields[1]];
          if m.guildID == "" && !c.options.dmCapability then Handled(DMRefused, false)
          else
            match Acl.CheckDecision(env.state, env.guild, AclMessage(m), c.roleRestriction, c.channelRestriction)
            case Err(e) => Handled(AclFailed(e), false)
            case Ok(false) => Handled(Denied(c.channelRestriction, c.roleRestriction), true)
            case Ok(true) =>
              if c.options.argsRequired && |args| == 0 then Handled(MissingArgs(MissingArgsText(env, c)), true)
              else Handled(Ran(c, args), c.options.deleteUserMessage)
  }

  /** A command handler runs exactly when every check passes: the initial
      check, at least two words, a second word that is neither help nor
      unknown, a server channel unless the command works in private, a
      permission check that succeeds and allows, and arguments when the
      command needs them. It then gets the words after the command name. */
  lemma RunsOnlyWhenAllowed(env: Env, m: Incoming)
    ensures var fields := Fields(m.content);
      Handle(env, m).outcome.Ran? <==>
        InitialCheck(env, m) && |fields| >= 2 && fields[1] != "help" && fields[1] != "h" &&
        fields[1] in env.registry &&
        (m.guildID != "" || env.registry[fields[1]].options.dmCapability) &&
        Acl.CheckDecision(env.state, env.guild, AclMessage(m),
                          env.registry[fields[1]].roleRestriction, env.registry[fields[1]].channelRestriction) == Ok(true) &&
        !(env.registry[fields[1]].options.argsRequired && |fields| == 2)
    ensures var fields := Fields(m.content);
      Handle(env, m).outcome.Ran? ==>
        Handle(env, m).outcome == Ran(env.registry[fields[1]], fields[2..]) &&
        Handle(env, m).deleted == env.registry[fields[1]].options.deleteUserMessage
  {
  }

  /** Help is answered before any command lookup and runs no handler: with
      no argument the global help, otherwise the help for the first
      argument; the message is deleted. */
  lemma HelpRunsNoHandler(env: Env, m: Incoming)
    requires InitialCheck(env, m)
    requires |Fields(m.content)| >= 2 && Fields(m.content)[1] in {"help", "h"}
    ensures var args := Fields(m.content)[2..];
      Handle(env, m) == Handled(if args == [] then GlobalHelp else CommandHelp(args[0]), true)
  {
  }

  /** In a private conversation a command without the private capability is
      refused before the permission check, whatever that would decide. */
  lemma PrivateRefusedBeforeAcl(env: Env, m: Incoming, state': Result<Acl.Settings, string>, guild': Result<Acl.Guild, string>)
    requires InitialCheck(env, m) && m.guildID == ""
    requires |Fields(m.content)| >= 2 && Fields(m.content)[1] !in {"help", "h"}
    requires Fields(m.content)[1] in env.registry && !env.registry[Fields(m.content)[1]].options.dmCapability
    ensures Handle(env, m) == Handled(DMRefused, false)
    ensures Handle(env.(state := state', guild := guild'), m) == Handle(env, m)
  {
  }

  /** Messages that fail the initial check are left alone; a message with
      fewer than two words is only deleted. */
  lemma EarlyExits(env: Env, m: Incoming)
    ensures !InitialCheck(env, m) ==> Handle(env, m) == Handled(Ignored, false)
    ensures InitialCheck(env, m) && |Fields(m.content)| < 2 ==> Handle(env, m) == Handled(Malformed, true)
    ensures m.authorBot || m.authorID == env.selfID ==> Handle(env, m).outcome == Ignored
  {
  }
}
