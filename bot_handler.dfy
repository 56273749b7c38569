/** The older message pipeline of `bot/handler.go`: the same checks as
    `bot/message.go` without the private-conversation check, and a denial
    notice spelled out from the two restriction labels. */
module BotHandler {
  import opened Wrappers
  import opened GoStrings
  import Acl
  import AclDisplay
  import opened Commands
  import opened BotMessage

  function DeniedText(c: BaseCommand): string
  {
    "You do not have permission to do that.\n" +
    AclDisplay.RoleRestrictionString(c.roleRestriction) + "\n" +
    AclDisplay.ChannelRestrictionString(c.channelRestriction)
  }

  /** MessageCreatedHandler, older version. */
  function Handle(env: Env, m: Incoming): Handled
  {
    if !InitialCheck(env, m) then Handled(Ignored, false)
    else
      var fields := Fields(m.content);
      if |fields| < 2 then Handled(Malformed, true)
      else
        var args := fields[2..];
        if fields[1] == "help" || fields[1] == "h" then
          Handled(if |args| < 1 then GlobalHelp else CommandHelp(args[0]), true)
        else if fields[1] !in env.registry then Handled(UnknownCommand, true)
        else
          var c := env.registry[fields[1]];
          match Acl.CheckDecision(env.state, env.guild, AclMessage(m), c.roleRestriction, c.channelRestriction)
          case Err(e) => Handled(AclFailed(e), false)
          case Ok(false) => Handled(Denied(c.channelRestriction, c.roleRestriction), true)
          case Ok(true) =>
            if c.options.argsRequired && |args| == 0 then Handled(MissingArgs(MissingArgsText(env, c)), true)
            else Handled(Ran(c, args), c.options.deleteUserMessage)
  }

  /** In a server channel the two versions decide alike; in a private
      conversation the older one lets through a command the newer refuses. */
  lemma AgreesOutsidePrivate(env: Env, m: Incoming)
    ensures m.guildID != "" ==> Handle(env, m) == BotMessage.Handle(env, m)
    ensures BotMessage.Handle(env, m).outcome != DMRefused ==> Handle(env, m) == BotMessage.Handle(env, m)
  {
  }

  /** A permission error returns without deleting the message; a denial
      deletes it; neither runs the handler. */
  lemma AclOutcomes(env: Env, m: Incoming)
    ensures Handle(env, m).outcome.AclFailed? ==> !Handle(env, m).deleted
    ensures Handle(env, m).outcome.Denied? ==> Handle(env, m).deleted
    ensures Handle(env, m).outcome.AclFailed? || Handle(env, m).outcome.Denied? ==>
      var fields := Fields(m.content);
      |fields| >= 2 && fields[1] in env.registry &&
      Acl.CheckDecision(env.state, env.guild, AclMessage(m),
                        env.registry[fields[1]].roleRestriction, env.registry[fields[1]].channelRestriction) != Ok(true)
  {
  }

  /** A command needing arguments never runs without them. */
  lemma ArgsRequiredHonoured(env: Env, m: Incoming)
    ensures Handle(env, m).outcome.Ran? && Handle(env, m).outcome.command.options.argsRequired ==>
      Handle(env, m).outcome.args != []
  {
  }
}
