/** The message router of `bot/router.go`, an earlier version of the older
    bot's command handling: a message is acknowledged when it carries the
    prefix in the public or control channel and does not come from the bot
    itself; its second word picks the handler. These handlers check no
    permission. */
module BotRouter {
  import opened Wrappers
  import opened GoStrings
  import opened Tracks
  import opened QueueSpec
  import opened BotInstance
  import SoundCloudURL
  import BotDisplay

  /** The incoming message, reduced to what the router reads. */
  datatype Message = Message(content: string, channelID: string, authorID: string)

  /** The bot's configuration: command prefix and the two channels it
      listens to; `selfID` is the bot's own user ID. */
  datatype Conf = Conf(prefix: string, publicChannel: string, controlChannel: string, selfID: string)

  predicate Ack(c: Conf, m: Message)
  {
    HasPrefix(m.content, c.prefix) &&
    (m.channelID == c.publicChannel || m.channelID == c.controlChannel) &&
    m.authorID != c.selfID
  }

  /** The handler a message goes to, with the words after the command. */
  datatype Route =
    | Usage
    | Join | Leave | Queue(args: seq<string>) | Add(args: seq<string>) | Shuffle
    | Pause | Play | Skip | Resume | Stop | Info(args: seq<string>)
    | Unknown

  function RouteOf(content: string): Route
  {
    var f := Fields(content);
    if |f| < 2 then Usage
    else
      var w, args := f[1], f[2..];
      if w == "join" || w == "j" then Join
      else if w == "leave" || w == "l" then Leave
      else if w == "queue" || w == "q" then Queue(args)
      else if w == "add" || w == "a" then Add(args)
      else if w == "shuffle" || w == "s" then Shuffle
      else if w == "pause" then Pause
      else if w == "play" then Play
      else if w == "skip" then Skip
      else if w == "resume" then Resume
      else if w == "stop" then Stop
      else if w == "info" || w == "i" then Info(args)
      else Unknown
  }

  const Commands: set<string> :=
    {"join", "j", "leave", "l", "queue", "q", "add", "a", "shuffle", "s",
     "pause", "play", "skip", "resume", "stop", "info", "i"}

  /** Fewer than two words get the usage text; an unknown second word is
      ignored; a known one reaches its handler, and the handlers that take
      arguments get exactly the words after the command. */
  lemma RouteSpec(content: string)
    ensures var f := Fields(content);
      (RouteOf(content) == Usage <==> |f| < 2) &&
      (RouteOf(content) == Unknown <==> |f| >= 2 && f[1] !in Commands) &&
      (RouteOf(content).Queue? || RouteOf(content).Add? || RouteOf(content).Info? ==> RouteOf(content).args == f[2..])
  {
  }

  /** The one-letter aliases of `bot/router.go`, paired with their long names. */
  const Aliases: set<(string, string)> :=
    {("join", "j"), ("leave", "l"), ("queue", "q"), ("add", "a"), ("shuffle", "s"), ("info", "i")}

  /** A one-letter alias routes exactly as its long name does, with the same
      arguments. */
  lemma AliasesAgree(c1: string, c2: string, long: string, short: string)
    requires (long, short) in Aliases
    requires |Fields(c1)| >= 2 && |Fields(c2)| >= 2
    requires Fields(c1)[1] == long && Fields(c2)[1] == short && Fields(c1)[2..] == Fields(c2)[2..]
    ensures RouteOf(c1) == RouteOf(c2) && RouteOf(c1) != Unknown
  {
  }

  /** What a routed message leads to besides changes to the bot. */
  datatype Effect =
    | Ignored
    | SentText(text: string)
    | SentNotice(body: string)
    | SentNamedNotice(title: string, body: string, footer: string)
    | SentEmbed(card: Embed)
    | AddToQueue(url: string)
    | HandleURL(url: string)
    | Fatal(err: string)
    | Crashed

  method ShuffleHandler(b: Bot, rnd: nat -> nat) returns (e: Effect)
    modifies b.player
    ensures ShuffledFrom(old(b.player.tracks), b.player.tracks, true)
    ensures e == SentNamedNotice("🎲 Shuffle!", "I shuffled " + Itoa(|b.player.tracks|) + " tracks for you.", "")
    ensures var p := b.player;
      p.playing == old(p.playing) && p.stop == old(p.stop) && p.pause == old(p.pause) &&
      p.streamPaused == old(p.streamPaused) && p.sessionStops == old(p.sessionStops)
  {
    b.player.Shuffle(rnd);
    e := SentNamedNotice("🎲 Shuffle!", "I shuffled " + Itoa(|b.player.tracks|) + " tracks for you.", "");
  }

  /** Add: a usage notice without an argument, a refusal for anything but a
      SoundCloud link, else the link goes to the queue loader. */
  function AddHandler(prefix: string, args: seq<string>): (e: Effect)
    ensures args == [] ==> e == SentNotice("Usage: `" + prefix + " <add|a> <soundcloud URL>`")
    ensures args != [] && SoundCloudURL.Check(args[0]).None? ==> e == SentNotice("This doesn't look like a SoundCloud URL")
    ensures e.AddToQueue? <==> args != [] && SoundCloudURL.Check(args[0]).Some?
    ensures e.AddToQueue? ==> Some(e.url) == SoundCloudURL.Check(args[0])
  {
    if |args| < 1 then SentNotice("Usage: `" + prefix + " <add|a> <soundcloud URL>`")
    else
      match SoundCloudURL.Check(args[0])
      case None => SentNotice("This doesn't look like a SoundCloud URL")
      case Some(url) => AddToQueue(url)
  }

  /** Info reads its first argument without checking that there is one: with
      no argument the handler fails with an index out of range. */
  function InfoHandler(args: seq<string>): (e: Effect)
    ensures e == Crashed <==> args == []
    ensures e.HandleURL? <==> args != [] && SoundCloudURL.Check(args[0]).Some?
    ensures e.HandleURL? ==> Some(e.url) == SoundCloudURL.Check(args[0])
  {
    if |args| < 1 then Crashed
    else
      match SoundCloudURL.Check(args[0])
      case None => SentText("This doesn't look like a Soundcloud URL")
      case Some(url) => HandleURL(url)
  }

  /** Pause and Resume only touch the stream, and only while playing; they
      leave the `pause` flag alone. */
  method PauseHandler(b: Bot, paused: bool)
    modifies b.player
    ensures b.player.streamPaused == if old(b.player.playing) then paused else old(b.player.streamPaused)
    ensures var p := b.player;
      p.tracks == old(p.tracks) && p.playing == old(p.playing) && p.stop == old(p.stop) &&
      p.pause == old(p.pause) && p.sessionStops == old(p.sessionStops)
  {
    if b.player.playing {
      b.player.streamPaused := paused;
    }
  }

  method StopHandler(b: Bot)
    modifies b.player
    ensures var p := b.player;
      if old(p.playing) then p.stop && p.sessionStops == old(p.sessionStops) + 1
      else p.stop == old(p.stop) && p.sessionStops == old(p.sessionStops)
    ensures var p := b.player;
      p.tracks == old(p.tracks) && p.playing == old(p.playing) && p.pause == old(p.pause) && p.streamPaused == old(p.streamPaused)
  {
    if b.player.playing {
      b.player.sessionStops := b.player.sessionStops + 1;
      b.player.stop := true;
    }
  }

  method SkipHandler(b: Bot) returns (e: Effect)
    modifies b.player
    ensures var p := b.player;
      if old(p.playing) then
        p.tracks == old(p.tracks) && p.sessionStops == old(p.sessionStops) + 1 &&
        e == SentNamedNotice("⏭️ Skip", "The currently playing track has been skipped", "Note: This can take a few seconds")
      else
        p.tracks == PopResult(old(p.tracks)) && p.sessionStops == old(p.sessionStops) &&
        e == SentNamedNotice("⏭️ Skip", "The next track in queue has been skipped", "")
    ensures var p := b.player;
      p.playing == old(p.playing) && p.stop == old(p.stop) && p.pause == old(p.pause) && p.streamPaused == old(p.streamPaused)
  {
    if b.player.playing {
      b.player.sessionStops := b.player.sessionStops + 1;
      e := SentNamedNotice("⏭️ Skip", "The currently playing track has been skipped", "Note: This can take a few seconds");
    } else {
      b.player.Pop();
      e := SentNamedNotice("⏭️ Skip", "The next track in queue has been skipped", "");
    }
  }

  /** Join connects when not connected; a failed join ends the whole
      process (`log.Fatal`). */
  method JoinHandler(b: Bot, joinError: Option<string>) returns (e: Effect)
    modifies b
    ensures old(b.voiceConnected) ==> b.voiceConnected && e == Ignored
    ensures !old(b.voiceConnected) ==>
      (joinError.Some? ==> e == Fatal(joinError.value) && !b.voiceConnected) &&
      (joinError.None? ==> e == Ignored && b.voiceConnected)
    ensures b.loopsStarted == old(b.loopsStarted)
  {
    e := Ignored;
    if !b.voiceConnected {
      if joinError.Some? {
        return Fatal(joinError.value);
      }
      b.voiceConnected := true;
    }
  }

  /** Leave drops the connection only when the disconnect succeeds. */
  method LeaveHandler(b: Bot, disconnectError: Option<string>)
    modifies b
    ensures b.voiceConnected == (old(b.voiceConnected) && disconnectError.Some?)
    ensures b.loopsStarted == old(b.loopsStarted)
  {
    if b.voiceConnected {
      if disconnectError.Some? {
        return;
      }
      b.voiceConnected := false;
    }
  }

  /** The outside world a handler may consult: the shuffle's random choices
      and the results of joining and leaving the voice channel. */
  datatype Env = Env(rnd: nat -> nat, joinError: Option<string>, disconnectError: Option<string>)

  /** Everything a routed message can change: the player's queue and flags,
      the voice connection and the count of playback loops started. */
  datatype BotState = BotState(
    tracks: seq<Track>, playing: bool, stop: bool, pause: bool, streamPaused: bool, sessionStops: nat,
    voiceConnected: bool, loopsStarted: nat)

  function StateOf(b: Bot): BotState
    reads b, b.player
  {
    BotState(b.player.tracks, b.player.playing, b.player.stop, b.player.pause, b.player.streamPaused,
             b.player.sessionStops, b.voiceConnected, b.loopsStarted)
  }

  /** What each route does, from the state `s0` to the state `s1` with the
      effect `e`, as its handler in `bot/router.go` does it. */
  ghost predicate RouteStep(r: Route, s0: BotState, s1: BotState, e: Effect, c: Conf, author: string, env: Env)
  {
    match r
    case Usage => s1 == s0 && e == SentText("TODO:usage")
    case Unknown => s1 == s0 && e == Ignored
    case Join =>
      if s0.voiceConnected then s1 == s0 && e == Ignored
      else if env.joinError.Some? then s1 == s0 && e == Fatal(env.joinError.value)
      else s1 == s0.(voiceConnected := true) && e == Ignored
    case Leave => s1 == s0.(voiceConnected := s0.voiceConnected && env.disconnectError.Some?) && e == Ignored
    case Queue(_) => s1 == s0 && e == SentEmbed(BotDisplay.QueueCard(s0.tracks, author, c.prefix))
    case Add(args) => s1 == s0 && e == AddHandler(c.prefix, args)
    case Shuffle =>
      ShuffledFrom(s0.tracks, s1.tracks, true) && s1 == s0.(tracks := s1.tracks) &&
      e == SentNamedNotice("🎲 Shuffle!", "I shuffled " + Itoa(|s1.tracks|) + " tracks for you.", "")
    case Pause => s1 == s0.(streamPaused := if s0.playing then true else s0.streamPaused) && e == Ignored
    case Resume => s1 == s0.(streamPaused := if s0.playing then false else s0.streamPaused) && e == Ignored
    case Play => s1 == s0.(loopsStarted := s0.loopsStarted + if s0.playing then 0 else 1) && e == Ignored
    case Skip =>
      if s0.playing then
        s1 == s0.(sessionStops := s0.sessionStops + 1) &&
        e == SentNamedNotice("⏭️ Skip", "The currently playing track has been skipped", "Note: This can take a few seconds")
      else
        s1 == s0.(tracks := PopResult(s0.tracks)) &&
        e == SentNamedNotice("⏭️ Skip", "The next track in queue has been skipped", "")
    case Stop =>
      (if s0.playing then s1 == s0.(stop := true, sessionStops := s0.sessionStops + 1) else s1 == s0) && e == Ignored
    case Info(args) => s1 == s0 && e == InfoHandler(args)
  }

  /** Each part of the bot has its own commands: only shuffle and skip
      touch the queue, only join and leave the voice connection, only play
      starts a loop, only pause and resume the stream, and only stop raises
      the stop flag. No command changes `playing` or `pause`. */
  lemma RouteStepChanges(r: Route, s0: BotState, s1: BotState, e: Effect, c: Conf, author: string, env: Env)
    requires RouteStep(r, s0, s1, e, c, author, env)
    ensures s1.tracks != s0.tracks ==> r == Shuffle || r == Skip
    ensures s1.voiceConnected != s0.voiceConnected ==> r == Join || r == Leave
    ensures s1.loopsStarted != s0.loopsStarted ==> r == Play && !s0.playing
    ensures s1.streamPaused != s0.streamPaused ==> (r == Pause || r == Resume) && s0.playing
    ensures s1.stop != s0.stop ==> r == Stop && s0.playing
    ensures s1.sessionStops != s0.sessionStops ==> (r == Stop || r == Skip) && s0.playing
    ensures s1.playing == s0.playing && s1.pause == s0.pause
  {
  }

  /** Runs the handler a route names. */
  method Dispatch(b: Bot, c: Conf, r: Route, author: string, env: Env) returns (e: Effect)
    modifies b, b.player
    ensures RouteStep(r, old(StateOf(b)), StateOf(b), e, c, author, env)
  {
    e := Ignored;
    match r {
      case Usage => e := SentText("TODO:usage");
      case Unknown =>
      case Join => e := JoinHandler(b, env.joinError);
      case Leave => LeaveHandler(b, env.disconnectError);
      case Queue(_) =>
        var card := BotDisplay.DisplayQueue(b.player, author, c.prefix);
        e := SentEmbed(card);
      case Add(args) => e := AddHandler(c.prefix, args);
      case Shuffle => e := ShuffleHandler(b, env.rnd);
      case Pause => PauseHandler(b, true);
      case Resume => PauseHandler(b, false);
      case Play => b.PlayQueue();
      case Skip => e := SkipHandler(b);
      case Stop => StopHandler(b);
      case Info(args) => e := InfoHandler(args);
    }
  }

  /** MessageCreated: unacknowledged messages are dropped and change
      nothing; an acknowledged one is routed by its words and its handler
      takes the step RouteStep describes. */
  method MessageCreated(b: Bot, c: Conf, m: Message, env: Env) returns (route: Option<Route>, e: Effect)
    modifies b, b.player
    ensures route == if Ack(c, m) then Some(RouteOf(m.content)) else None
    ensures route == None ==> e == Ignored && StateOf(b) == old(StateOf(b))
    ensures route.Some? ==> RouteStep(route.value, old(StateOf(b)), StateOf(b), e, c, m.authorID, env)
  {
    if !Ack(c, m) {
      return None, Ignored;
    }
    var r := RouteOf(m.content);
    route := Some(r);
    e := Dispatch(b, c, r, m.authorID, env);
  }
}
