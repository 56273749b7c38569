/** The player commands of `commands/player.go`: play, stop, pause, skip
    and nowplaying, each a guard on the player's flags in front of one
    control operation. Replies are returned; `timed` marks the ones removed
    after five seconds. */
module CommandsPlayer {
  import opened Wrappers
  import opened GoStrings
  import opened Tracks
  import opened PlayerControl
  import Acl
  import opened Commands

  datatype Reply = Reply(body: string, timed: bool)

  function Mention(id: string): string { "<@" + id + ">" }

  const PlayCommand: BaseCommand := BaseCommand(
    Acl.Music, Acl.Anyone, "play", [], Options(false, true, false), [],
    Help([], "play", "", "Start playing the queue",
         "This command will start playing the queue. It has no effect if the queue is the player is already active.\nThe bot will join the vocal channel when playing starts"))

  const StopCommand: BaseCommand := BaseCommand(
    Acl.Music, Acl.Privileged, "stop", [], Options(false, true, false), [],
    Help([], "stop", "", "Stop the player",
         "This command will stop the player. If the player is already stopped, this command has no effect."))

  const PauseCommand: BaseCommand := BaseCommand(
    Acl.Music, Acl.Anyone, "pause", [], Options(false, true, false), [],
    Help([], "pause", "", "Pause the player",
         "This command will pause the player, the current track won't be skipped and will keep its current playback position. If the player is already paused this command has no effect."))

  const SkipCommand: BaseCommand := BaseCommand(
    Acl.Anywhere, Acl.Privileged, "skip", [], Options(false, true, false), [],
    Help([], "skip", "", "Skip the currently playing track", "This command can be used to skip tracks at will."))

  const NowPlayingCommand: BaseCommand := BaseCommand(
    Acl.Anywhere, Acl.Anyone, "nowplaying", ["np"], Options(false, true, false), [],
    Help([], "nowplaying", "", "Display the currently playing track",
         "This command displays the track that is currently being played. This command has no effect if the player isn't running."))

  /** play: a paused player is resumed, a playing one is left alone, an
      idle one starts a playback loop. */
  method Play(p: Player, author: string) returns (r: Reply)
    modifies p, p.state
    ensures old(p.state.playing) && old(p.state.paused) ==>
      p.Snapshot() == ResumeStep(old(p.Snapshot())) && p.loopsStarted == old(p.loopsStarted) &&
      r == Reply("⏯️ Resumed by " + Mention(author), false)
    ensures old(p.state.playing) && !old(p.state.paused) ==>
      p.Snapshot() == old(p.Snapshot()) && p.loopsStarted == old(p.loopsStarted) && r == Reply("Already playing", true)
    ensures !old(p.state.playing) ==>
      p.Snapshot() == old(p.Snapshot()) && p.loopsStarted == old(p.loopsStarted) + 1 &&
      r == Reply("▶️ Started playing for " + Mention(author), false)
  {
    if p.state.playing && p.state.paused {
      p.Resume();
      return Reply("⏯️ Resumed by " + Mention(author), false);
    }
    if p.state.playing {
      return Reply("Already playing", true);
    }
    p.Play();
    return Reply("▶️ Started playing for " + Mention(author), false);
  }

  method Stop(p: Player, author: string) returns (r: Reply)
    modifies p, p.state
    ensures p.Snapshot() == StopStep(old(p.Snapshot())) && p.loopsStarted == old(p.loopsStarted)
    ensures r == if old(p.state.playing) then Reply("⏹️ Stopped by " + Mention(author), false) else Reply("Nothing to do", true)
  {
    if !p.state.playing {
      return Reply("Nothing to do", true);
    }
    p.Stop();
    return Reply("⏹️ Stopped by " + Mention(author), false);
  }

  /** pause looks only at `Paused`; Pause itself then does nothing unless a
      stream is playing, though the reply says it paused. */
  method Pause(p: Player, author: string) returns (r: Reply)
    modifies p, p.state
    ensures old(p.state.paused) ==>
      p.Snapshot() == old(p.Snapshot()) && r == Reply("Already paused", true)
    ensures !old(p.state.paused) ==>
      p.Snapshot() == PauseStep(old(p.Snapshot())) && r == Reply("⏸️ Paused by " + Mention(author), false)
    ensures p.loopsStarted == old(p.loopsStarted)
  {
    if p.state.paused {
      return Reply("Already paused", true);
    }
    p.Pause();
    return Reply("⏸️ Paused by " + Mention(author), false);
  }

  /** skip has no guard of its own: Skip is a no-op when idle. */
  method Skip(p: Player, author: string) returns (r: Reply)
    modifies p
    ensures p.Snapshot() == SkipStep(old(p.Snapshot())) && p.loopsStarted == old(p.loopsStarted)
    ensures r == Reply("⏭️ " + Mention(author) + " skipped the currently playing track", false)
  {
    p.Skip();
    return Reply("⏭️ " + Mention(author) + " skipped the currently playing track", false);
  }

  /** What nowplaying ends in: a refusal, or the playing track's card whose
      footer counts the queue and then renders its total duration with the
      `durafmt` library (the milliseconds are kept), or a crash after a
      reply already sent. */
  datatype NowPlayingOutcome =
    | Refused(reply: Reply)
    | Card(card: Embed, queueDurationMs: int)
    | Crashed(sent: Reply)

  const NothingPlaying: Reply := Reply("No track is currently playing", true)

  function NowPlayingCard(tracks: seq<Track>): NowPlayingOutcome
    requires tracks != []
  {
    Card(TrackEmbed(tracks[0]).(footer := Some(Itoa(|tracks|) + " tracks left in queue - ")), SumDurations(tracks))
  }

  /** The handler as written: after the "nothing playing" reply for an
      empty queue there is no return, so the nil track is dereferenced once
      that reply is out. */
  function NowPlayingAsWritten(playing: bool, tracks: seq<Track>): NowPlayingOutcome
  {
    if !playing then Refused(NothingPlaying)
    else if tracks == [] then Crashed(NothingPlaying)
    else NowPlayingCard(tracks)
  }

  /** The handler with the missing return. */
  function NowPlayingIntended(playing: bool, tracks: seq<Track>): NowPlayingOutcome
  {
    if !playing || tracks == [] then Refused(NothingPlaying)
    else NowPlayingCard(tracks)
  }

  /** The two differ only on a playing player with an empty queue, where
      the source crashes after replying; the intended handler never
      crashes, and shows a card exactly when a track is at the head of a
      playing queue. */
  lemma NowPlayingNilTrack(playing: bool, tracks: seq<Track>)
    ensures NowPlayingAsWritten(true, []) == Crashed(NothingPlaying) && NowPlayingIntended(true, []) == Refused(NothingPlaying)
    ensures !(playing && tracks == []) ==> NowPlayingAsWritten(playing, tracks) == NowPlayingIntended(playing, tracks)
    ensures !NowPlayingIntended(playing, tracks).Crashed?
    ensures NowPlayingIntended(playing, tracks).Card? <==> playing && tracks != []
    ensures NowPlayingIntended(playing, tracks).Card? ==>
      NowPlayingIntended(playing, tracks).card.title == tracks[0].title &&
      NowPlayingIntended(playing, tracks).queueDurationMs == SumDurations(tracks)
  {
  }

  method NowPlaying(p: Player) returns (o: NowPlayingOutcome)
    ensures o == NowPlayingIntended(p.state.playing, p.queue.tracks)
  {
    if !p.state.playing {
      return Refused(NothingPlaying);
    }
    var t := p.queue.Get();
    if t == None {
      return Refused(NothingPlaying);
    }
    var e := TrackEmbed(t.value);
    var n := p.queue.Len();
    var d := p.queue.Duration();
    e := e.(footer := Some(Itoa(n) + " tracks left in queue - "));
    return Card(e, d);
  }
}
