/** The playback flags and volume shared by a guild's player and its queue
    (`player/state.go`). */
module PlayerState {

  /** Raw encoder gain that stands for 100 %. */
  const DefaultVolume: int := 256

  class State {
    var playing: bool
    var stopped: bool
    var paused: bool
    /** Raw encoder gain units; see `PlayerControl.SetVolume`. */
    var volume: int

    /** `NewState`: idle, not stopped, not paused, at the normal volume. */
    constructor ()
      ensures !playing && !stopped && !paused
      ensures volume == DefaultVolume
    {
      playing, stopped, paused := false, false, false;
      volume := DefaultVolume;
    }
  }
}
