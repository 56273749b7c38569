/** The public handlers of `bot/handlers_public.go`: add and next (a
    SoundCloud link to the end or the front of the queue), help, and the
    queue command with its shuffle and clear subcommands. `restricted` stands
    for the bot's privileged-author check. Every handler deletes the
    triggering message on return, which is not modelled; loading the link's
    tracks (`AddToQueue`) is an outcome, not modelled further. */
module BotPublic {
  import opened Wrappers
  import opened GoStrings
  import opened Tracks
  import opened QueueSpec
  import opened BotInstance
  import opened BotControl
  import SoundCloudURL
  import BotDisplay

  /** What a public handler answers with. */
  datatype Reply =
    | Posted(notice: Notice)
    | Queued(url: string, next: bool)
    | Shown(card: Embed)

  /** The shared body of Add and Next, with the usage line of the command. */
  function LinkCommand(usage: string, args: seq<string>, next: bool): Reply
  {
    if |args| < 1 then Posted(Notice(usage, "", false))
    else
      match SoundCloudURL.Check(args[0])
      case None => Posted(Notice("This doesn't look like a SoundCloud URL", "", true))
      case Some(url) => Queued(url, next)
  }

  function AddHandler(prefix: string, args: seq<string>): (r: Reply)
    ensures args == [] ==> r == Posted(Notice("Usage: `" + prefix + " <add|a> <soundcloud URL>`", "", false))
    ensures r.Queued? <==> args != [] && SoundCloudURL.Check(args[0]).Some?
    ensures r.Queued? ==> Some(r.url) == SoundCloudURL.Check(args[0]) && !r.next
  {
    LinkCommand("Usage: `" + prefix + " <add|a> <soundcloud URL>`", args, false)
  }

  function NextHandler(prefix: string, args: seq<string>): (r: Reply)
    ensures args == [] ==> r == Posted(Notice("Usage: `" + prefix + " <next|n> <soundcloud URL>`", "", false))
    ensures r.Queued? <==> args != [] && SoundCloudURL.Check(args[0]).Some?
    ensures r.Queued? ==> Some(r.url) == SoundCloudURL.Check(args[0]) && r.next
  {
    LinkCommand("Usage: `" + prefix + " <next|n> <soundcloud URL>`", args, true)
  }

  /** Add and Next accept and refuse exactly the same arguments, queue the
      same link, and differ only in where it goes; a refused link gets the
      same short-lived notice from both. */
  lemma AddNextAgree(prefix: string, args: seq<string>)
    requires args != []
    ensures AddHandler(prefix, args).Queued? == NextHandler(prefix, args).Queued?
    ensures AddHandler(prefix, args).Queued? ==>
      NextHandler(prefix, args) == AddHandler(prefix, args).(next := true)
    ensures !AddHandler(prefix, args).Queued? ==>
      AddHandler(prefix, args) == NextHandler(prefix, args) == Posted(Notice("This doesn't look like a SoundCloud URL", "", true))
  {
  }

  const HelpCommands: string :=
    "**Available commands:**\n" +
    "· `help` - Display this help message\n" +
    "· `add` or `a` - Add tracks to the end of queue\n" +
    "· `next` or `n` - Add tracks to the start of queue\n" +
    "· `queue` or `q` - Display the queue\n" +
    "· `queue shuffle` - Shuffle the queue\n" +
    "· `play/pause/resume` - Control the player\n" +
    "· `vote` - Vote to skip the currently playing track\n\n" +
    "For example, to add a new track to the playlist, you need to send\n"

  /** The commands only privileged members may use. */
  function PrivilegedFields(prefix: string): seq<Field>
  {
    [Field("Channel", Text(prefix + " <join/leave>"), false),
     Field("Clear Queue", Text(prefix + " <queue|q> clear"), true),
     Field("Control", Text(prefix + " <stop>"), false),
     Field("Skip", Text(prefix + " <skip>"), false),
     Field("Stats", Text(prefix + " <stats>"), false)]
  }

  function HelpText(prefix: string): string
  {
    "Prefix your commands with `" + prefix + "`\n\n" + HelpCommands + "`" + prefix + " add <soundcloud URL>`"
  }

  function HelpHandler(prefix: string, restricted: bool): Embed
  {
    Embed("Fox Help", "", "", HelpText(prefix),
          if restricted then PrivilegedFields(prefix) else [],
          None)
  }

  /** Everyone gets the same help card; a privileged author also sees the
      five privileged commands, and only they do. */
  lemma HelpPrivilegedOnly(prefix: string)
    ensures HelpHandler(prefix, false).fields == []
    ensures HelpHandler(prefix, true) == HelpHandler(prefix, false).(fields := PrivilegedFields(prefix))
    ensures var f := HelpHandler(prefix, true).fields;
      |f| == 5 && f[1].name == "Clear Queue" && f[1].inline &&
      forall k | 0 <= k < 5 && k != 1 :: !f[k].inline
    ensures HelpHandler(prefix, true).description == HelpText(prefix)
  {
  }

  /** The queue command: without an argument it shows the queue; `shuffle`
      shuffles it (keeping the head) and reports the size; `clear` clears it
      for a privileged author only; anything else is unknown. */
  method QueueHandler(b: Bot, restricted: bool, author: string, prefix: string, args: seq<string>, rnd: nat -> nat)
    returns (r: Reply)
    modifies b.player
    ensures args == [] ==> r == Shown(BotDisplay.QueueCard(old(b.player.tracks), author, prefix)) && b.player.tracks == old(b.player.tracks)
    ensures args != [] && args[0] == "shuffle" ==>
      ShuffledFrom(old(b.player.tracks), b.player.tracks, true) &&
      r == Posted(Notice("🎲 Shuffled **" + Itoa(|old(b.player.tracks)|) + "** tracks for " + Mention(author), "", false))
    ensures args != [] && args[0] == "clear" && restricted ==>
      b.player.tracks == ClearResult(old(b.player.tracks), old(b.player.playing)) &&
      r == Posted(Notice("🚮 The queue was reset by " + Mention(author), "", false))
    ensures args != [] && args[0] == "clear" && !restricted ==>
      b.player.tracks == old(b.player.tracks) && r == Posted(NoPermission)
    ensures args != [] && args[0] != "shuffle" && args[0] != "clear" ==>
      b.player.tracks == old(b.player.tracks) &&
      r == Posted(Notice("Unknown command", "Tip: Use \"" + prefix + " help\" for a list of commands", true))
    ensures var p := b.player;
      p.playing == old(p.playing) && p.stop == old(p.stop) && p.pause == old(p.pause) &&
      p.streamPaused == old(p.streamPaused) && p.sessionStops == old(p.sessionStops)
  {
    if |args| == 0 {
      var card := BotDisplay.DisplayQueue(b.player, author, prefix);
      return Shown(card);
    }
    if args[0] == "shuffle" {
      b.player.Shuffle(rnd);
      var n := b.player.QueueSize();
      r := Posted(Notice("🎲 Shuffled **" + Itoa(n) + "** tracks for " + Mention(author), "", false));
    } else if args[0] == "clear" {
      if restricted {
        b.player.Clear();
        r := Posted(Notice("🚮 The queue was reset by " + Mention(author), "", false));
      } else {
        r := Posted(NoPermission);
      }
    } else {
      r := Posted(Notice("Unknown command", "Tip: Use \"" + prefix + " help\" for a list of commands", true));
    }
  }
}
