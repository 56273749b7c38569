/** The player's control operations (`player/control.go`): they flip the
    `Stopped` and `Paused` flags, set the volume, pause the stream and send
    the stop signal to the playback loop. The player's fields come from
    `player/player.go`; the playback loop itself is not modelled, and the
    signal it receives is modelled as a count of signals sent. */
module PlayerControl {
  import opened Wrappers
  import PlayerState
  import PlayerQueue

  const MaxVolume: int := 512
  const MaxPercent: int := 200

  /** SetVolume's range check. */
  predicate ValidVolume(v: int) { 0 <= v <= MaxVolume }

  /** SetVolumePercent's range check. */
  predicate ValidPercent(v: int) { 0 <= v <= MaxPercent }

  /** A percentage in raw gain units, with Go's integer division (the
      operand is never negative here). */
  function PercentToRaw(v: nat): int
  {
    256 * v / 100
  }

  datatype VolumeError = InvalidVolume | InvalidPercentage | UnableToSet(cause: VolumeError)

  /** The player's observable control state: the four State fields, whether a
      stream exists, the stream's own paused flag, and how many stop signals
      have been sent to the playback loop. */
  datatype Control = Control(
    playing: bool, stopped: bool, paused: bool, volume: int,
    hasStream: bool, streamPaused: bool, stopSignals: nat)

  function StopStep(c: Control): Control
  {
    if !c.playing then c else c.(stopped := true, stopSignals := c.stopSignals + 1)
  }

  function SkipStep(c: Control): Control
  {
    if !c.playing then c else c.(stopSignals := c.stopSignals + 1)
  }

  function PauseStep(c: Control): Control
  {
    if !c.hasStream || !c.playing then c else c.(paused := true, streamPaused := true)
  }

  function ResumeStep(c: Control): Control
  {
    if !c.hasStream || !c.paused then c else c.(paused := false, streamPaused := false)
  }

  function SetVolumeStep(c: Control, v: int): Control
  {
    if ValidVolume(v) then c.(volume := v) else c
  }

  function SetVolumePercentStep(c: Control, v: int): Control
  {
    if ValidPercent(v) then c.(volume := PercentToRaw(v)) else c
  }

  /** Stop: nothing while idle; otherwise `Stopped` is set and exactly one
      signal is sent, and nothing else changes. Skip sends the same signal
      but leaves `Stopped` alone, so the loop moves on instead of ending. */
  lemma StopAndSkip(c: Control)
    ensures !c.playing ==> StopStep(c) == c && SkipStep(c) == c
    ensures c.playing ==> StopStep(c).stopped && StopStep(c).stopSignals == c.stopSignals + 1 &&
                          StopStep(c).(stopped := c.stopped, stopSignals := c.stopSignals) == c
    ensures c.playing ==> SkipStep(c).stopped == c.stopped && SkipStep(c).stopSignals == c.stopSignals + 1 &&
                          SkipStep(c).(stopSignals := c.stopSignals) == c
  {
  }

  /** Pause and Resume are idempotent and, with a stream, undo each other's
      flags; Pause needs a playing stream, Resume a paused one. */
  lemma PauseResume(c: Control)
    ensures PauseStep(PauseStep(c)) == PauseStep(c)
    ensures ResumeStep(ResumeStep(c)) == ResumeStep(c)
    ensures c.hasStream && c.playing ==> PauseStep(c).paused && PauseStep(c).streamPaused
    ensures !c.paused ==> ResumeStep(c) == c
    ensures c.hasStream && c.playing && !c.paused && !c.streamPaused ==> ResumeStep(PauseStep(c)) == c
    ensures StopStep(StopStep(c)).(stopSignals := 0) == StopStep(c).(stopSignals := 0)
  {
  }

  /** Every accepted percentage lands inside SetVolume's range, so its inner
      error branch is never taken; the default volume is 100 %. */
  lemma PercentInRange(v: int)
    requires ValidPercent(v)
    ensures ValidVolume(PercentToRaw(v))
    ensures v <= 100 ==> PercentToRaw(v) <= PlayerState.DefaultVolume
    ensures PercentToRaw(100) == PlayerState.DefaultVolume && ValidVolume(PlayerState.DefaultVolume)
  {
  }

  /** Rejected volumes leave the state as it was. */
  lemma VolumeRejections(c: Control, v: int)
    ensures !ValidVolume(v) ==> SetVolumeStep(c, v) == c
    ensures !ValidPercent(v) ==> SetVolumePercentStep(c, v) == c
    ensures ValidPercent(v) ==> SetVolumePercentStep(c, v) == SetVolumeStep(c, PercentToRaw(v))
  {
  }

  class Player {
    const state: PlayerState.State
    const queue: PlayerQueue.Queue
    /** `p.stream != nil` */
    var hasStream: bool
    /** The stream's own paused flag (`stream.SetPaused`). */
    var streamPaused: bool
    /** Signals sent on `p.stop`. */
    var stopSignals: nat
    /** Playback loops started by Play. */
    var loopsStarted: nat

    function Snapshot(): Control
      reads this, state
    {
      Control(state.playing, state.stopped, state.paused, state.volume, hasStream, streamPaused, stopSignals)
    }

    /** `NewPlayer`: a fresh state at the default volume and an empty queue
      sharing it; no stream, no signal sent. */
    constructor ()
      ensures queue.state == state && fresh(state) && fresh(queue)
      ensures Snapshot() == Control(false, false, false, PlayerState.DefaultVolume, false, false, 0)
      ensures queue.tracks == [] && loopsStarted == 0
    {
      var st := new PlayerState.State();
      state := st;
      queue := new PlayerQueue.Queue(st);
      hasStream, streamPaused, stopSignals, loopsStarted := false, false, 0, 0;
    }

    /** Play's entry guard (`player/play.go`): a loop is started only when
      the player is not already playing. */
    method Play()
      modifies this
      ensures loopsStarted == old(loopsStarted) + (if state.playing then 0 else 1)
      ensures hasStream == old(hasStream) && streamPaused == old(streamPaused) && stopSignals == old(stopSignals)
    {
      if state.playing {
        return;
      }
      loopsStarted := loopsStarted + 1;
    }

    method Stop()
      modifies this, state
      ensures Snapshot() == StopStep(old(Snapshot()))
      ensures loopsStarted == old(loopsStarted)
    {
      if !state.playing {
        return;
      }
      state.stopped := true;
      stopSignals := stopSignals + 1;
    }

    method Pause()
      modifies this, state
      ensures Snapshot() == PauseStep(old(Snapshot()))
      ensures loopsStarted == old(loopsStarted)
    {
      if !hasStream || !state.playing {
        return;
      }
      state.paused := true;
      streamPaused := true;
    }

    method Skip()
      modifies this
      ensures Snapshot() == SkipStep(old(Snapshot()))
      ensures loopsStarted == old(loopsStarted)
    {
      if !state.playing {
        return;
      }
      stopSignals := stopSignals + 1;
    }

    method Resume()
      modifies this, state
      ensures Snapshot() == ResumeStep(old(Snapshot()))
      ensures loopsStarted == old(loopsStarted)
    {
      if !hasStream || !state.paused {
        return;
      }
      state.paused := false;
      streamPaused := false;
    }

    /** Sets the volume for the next track. */
    method SetVolume(v: int) returns (err: Option<VolumeError>)
      modifies state
      ensures err == (if ValidVolume(v) then None else Some(InvalidVolume))
      ensures Snapshot() == SetVolumeStep(old(Snapshot()), v)
    {
      if v < 0 || v > 512 {
        return Some(InvalidVolume);
      }
      state.volume := v;
      return None;
    }

    method SetVolumePercent(v: int) returns (err: Option<VolumeError>)
      modifies state
      ensures err == (if ValidPercent(v) then None else Some(InvalidPercentage))
      ensures Snapshot() == SetVolumePercentStep(old(Snapshot()), v)
    {
      if v < 0 || v > 200 {
        return Some(InvalidPercentage);
      }
      var vol := 256 * v / 100;
      var e := SetVolume(vol);
      if e.Some? {
        assert false;
        return Some(UnableToSet(InvalidVolume));
      }
      return None;
    }
  }
}
