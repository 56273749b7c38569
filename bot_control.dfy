/** The control handlers of `bot/handlers_control.go`: play, pause, resume,
    stop, skip, join and leave. `restricted` stands for the bot's check that
    the author may use privileged commands; the voice join and disconnect
    results are inputs. Every handler also deletes the triggering message on
    return, which is not modelled. */
module BotControl {
  import opened Wrappers
  import opened QueueSpec
  import opened BotInstance

  /** An embed notice: body, footer, and whether it is deleted after a few
      seconds. */
  datatype Notice = Notice(body: string, footer: string, timed: bool)

  function Mention(id: string): string { "<@" + id + ">" }

  const NoPermission := Notice("You do not have this permission", "Tip: Only admins and DJs can do that", true)

  method PlayHandler(b: Bot, author: string) returns (n: Notice)
    modifies b
    ensures b.player.playing ==> n == Notice("▶️ Play: Nothing to do", "", true) && b.loopsStarted == old(b.loopsStarted)
    ensures !b.player.playing ==> n == Notice("▶️ Started playing for " + Mention(author), "", false) &&
                                  b.loopsStarted == old(b.loopsStarted) + 1
    ensures b.voiceConnected == old(b.voiceConnected)
  {
    if b.player.playing {
      return Notice("▶️ Play: Nothing to do", "", true);
    }
    b.PlayQueue();
    return Notice("▶️ Started playing for " + Mention(author), "", false);
  }

  method PauseHandler(b: Bot, author: string) returns (n: Notice)
    modifies b.player
    ensures var p := b.player;
      if old(p.playing) && !old(p.pause) then
        p.pause && p.streamPaused && n == Notice("⏸️ Paused by " + Mention(author), "", false)
      else
        p.pause == old(p.pause) && p.streamPaused == old(p.streamPaused) && n == Notice("⏸️ Pause: Nothing to do", "", true)
    ensures var p := b.player;
      p.tracks == old(p.tracks) && p.playing == old(p.playing) && p.stop == old(p.stop) && p.sessionStops == old(p.sessionStops)
  {
    if !b.player.playing {
      return Notice("⏸️ Pause: Nothing to do", "", true);
    }
    if !b.player.pause {
      b.player.streamPaused := true;
      b.player.pause := true;
      n := Notice("⏸️ Paused by " + Mention(author), "", false);
    } else {
      n := Notice("⏸️ Pause: Nothing to do", "", true);
    }
  }

  /** Resume answers "nothing to do" in two ways: a lasting notice when
      nothing plays, a notice removed after five seconds when not paused. */
  method ResumeHandler(b: Bot, author: string) returns (n: Notice)
    modifies b.player
    ensures var p := b.player;
      if old(p.playing) && old(p.pause) then
        !p.pause && !p.streamPaused && n == Notice("⏯️ Resumed by " + Mention(author), "", false)
      else
        p.pause == old(p.pause) && p.streamPaused == old(p.streamPaused) &&
        n == Notice("▶️ Resume: Nothing to do", "", old(p.playing))
    ensures var p := b.player;
      p.tracks == old(p.tracks) && p.playing == old(p.playing) && p.stop == old(p.stop) && p.sessionStops == old(p.sessionStops)
  {
    if !b.player.playing {
      return Notice("▶️ Resume: Nothing to do", "", false);
    }
    if b.player.pause {
      b.player.streamPaused := false;
      b.player.pause := false;
      n := Notice("⏯️ Resumed by " + Mention(author), "", false);
    } else {
      n := Notice("▶️ Resume: Nothing to do", "", true);
    }
  }

  method StopHandler(b: Bot, restricted: bool, author: string) returns (n: Notice)
    modifies b.player
    ensures var p := b.player;
      if restricted && old(p.playing) then
        p.stop && p.sessionStops == old(p.sessionStops) + 1 && n == Notice("⏹️ Stopped by " + Mention(author), "", false)
      else
        p.stop == old(p.stop) && p.sessionStops == old(p.sessionStops) &&
        n == (if restricted then Notice("⏹️ Stop: Nothing to do", "", true)
              else Notice("You do not have permission to stop the player", "", true))
    ensures var p := b.player;
      p.tracks == old(p.tracks) && p.playing == old(p.playing) && p.pause == old(p.pause) && p.streamPaused == old(p.streamPaused)
  {
    if !restricted {
      return Notice("You do not have permission to stop the player", "", true);
    }
    if !b.player.playing {
      return Notice("⏹️ Stop: Nothing to do", "", true);
    }
    b.player.sessionStops := b.player.sessionStops + 1;
    b.player.stop := true;
    return Notice("⏹️ Stopped by " + Mention(author), "", false);
  }

  /** Skip ends the playing track by stopping the session and leaves the
      queue to the playback loop; when idle it drops the next track. */
  method SkipHandler(b: Bot, restricted: bool, author: string) returns (n: Notice)
    modifies b.player
    ensures !restricted ==>
      b.player.tracks == old(b.player.tracks) && b.player.sessionStops == old(b.player.sessionStops) &&
      n == Notice("You do not have permission to arbitrarily skip a track", "Tip: Start a vote using \"!fox vote\"", true)
    ensures restricted && old(b.player.playing) ==>
      b.player.tracks == old(b.player.tracks) && b.player.sessionStops == old(b.player.sessionStops) + 1 &&
      n == Notice("⏭️ " + Mention(author) + " skipped the currently playing track", "Note: This can take a few seconds", false)
    ensures restricted && !old(b.player.playing) ==>
      b.player.tracks == PopResult(old(b.player.tracks)) && b.player.sessionStops == old(b.player.sessionStops) &&
      n == Notice("⏭️ " + Mention(author) + " skipped the next track in queue", "", false)
    ensures var p := b.player;
      p.playing == old(p.playing) && p.stop == old(p.stop) && p.pause == old(p.pause) && p.streamPaused == old(p.streamPaused)
  {
    if !restricted {
      return Notice("You do not have permission to arbitrarily skip a track", "Tip: Start a vote using \"!fox vote\"", true);
    }
    if b.player.playing {
      b.player.sessionStops := b.player.sessionStops + 1;
      n := Notice("⏭️ " + Mention(author) + " skipped the currently playing track", "Note: This can take a few seconds", false);
    } else {
      b.player.Pop();
      n := Notice("⏭️ " + Mention(author) + " skipped the next track in queue", "", false);
    }
  }

  /** Join connects only when there is no connection; a failed join leaves
      the bot disconnected and says why. `joinError` is the voice join's
      error, if any. */
  method JoinHandler(b: Bot, restricted: bool, author: string, joinError: Option<string>) returns (n: Option<Notice>)
    modifies b
    ensures !restricted ==> b.voiceConnected == old(b.voiceConnected) && n == Some(NoPermission)
    ensures restricted && old(b.voiceConnected) ==> b.voiceConnected && n == None
    ensures restricted && !old(b.voiceConnected) ==>
      b.voiceConnected == joinError.None? &&
      n == (if joinError.Some? then Some(Notice("Unable to join voice channel as instructed by " + Mention(author),
                                                "Error was: " + joinError.value, false))
            else None)
    ensures b.loopsStarted == old(b.loopsStarted)
  {
    if !restricted {
      return Some(NoPermission);
    }
    n := None;
    if !b.voiceConnected {
      if joinError.Some? {
        return Some(Notice("Unable to join voice channel as instructed by " + Mention(author), "Error was: " + joinError.value, false));
      }
      b.voiceConnected := true;
    }
  }

  /** Leave stops a playing track before disconnecting; the connection is
      dropped only when the disconnect succeeds. */
  method LeaveHandler(b: Bot, restricted: bool, author: string, disconnectError: Option<string>) returns (n: Option<Notice>)
    modifies b, b.player
    ensures !restricted ==>
      b.voiceConnected == old(b.voiceConnected) && n == Some(NoPermission) &&
      b.player.stop == old(b.player.stop) && b.player.sessionStops == old(b.player.sessionStops)
    ensures restricted && !old(b.voiceConnected) ==>
      !b.voiceConnected && n == None && b.player.stop == old(b.player.stop) && b.player.sessionStops == old(b.player.sessionStops)
    ensures restricted && old(b.voiceConnected) ==>
      b.voiceConnected == disconnectError.Some? &&
      (old(b.player.playing) ==> b.player.stop && b.player.sessionStops == old(b.player.sessionStops) + 1) &&
      (!old(b.player.playing) ==> b.player.stop == old(b.player.stop) && b.player.sessionStops == old(b.player.sessionStops)) &&
      n == (if disconnectError.Some? then Some(Notice("Unable to leave voice channel as instructed by " + Mention(author),
                                                      "Error was: " + disconnectError.value, false))
            else None)
    ensures var p := b.player;
      p.tracks == old(p.tracks) && p.playing == old(p.playing) && p.pause == old(p.pause) &&
      p.streamPaused == old(p.streamPaused) && b.loopsStarted == old(b.loopsStarted)
  {
    if !restricted {
      return Some(NoPermission);
    }
    n := None;
    if b.voiceConnected {
      if b.player.playing {
        b.player.sessionStops := b.player.sessionStops + 1;
        b.player.stop := true;
      }
      if disconnectError.Some? {
        return Some(Notice("Unable to leave voice channel as instructed by " + Mention(author), "Error was: " + disconnectError.value, false));
      }
      b.voiceConnected := false;
    }
  }
}
