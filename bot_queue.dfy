/** The older queue of `bot/queue.go`: the bot's single `Player` holds the
    track list next to the `playing`, `stop` and `pause` flags that the
    playback loop and the handlers share. The tracks mutex is not modelled. */
module BotQueue {
  import opened Wrappers
  import opened Tracks
  import opened QueueSpec
  import opened GoRand

  class Player {
    var tracks: seq<Track>
    var playing: bool
    var stop: bool
    var pause: bool
    /** The streaming session's paused flag (`stream.SetPaused`). */
    var streamPaused: bool
    /** Calls to the encode session's `Stop`, which ends the current track. */
    var sessionStops: nat

    /** The player the bot starts with: an empty queue and every flag down. */
    constructor ()
      ensures tracks == [] && !playing && !stop && !pause && !streamPaused && sessionStops == 0
    {
      tracks := [];
      playing, stop, pause, streamPaused := false, false, false, false;
      sessionStops := 0;
    }

    /** Total duration of the queue in milliseconds. */
    method QueueDuration() returns (tot: int)
      ensures tot == SumDurations(tracks)
    {
      tot := 0;
      for i := 0 to |tracks|
        invariant tot == SumDurations(tracks[..i])
      {
        assert tracks[..i + 1][..i] == tracks[..i];
        tot := tot + tracks[i].duration;
      }
      assert tracks[..|tracks|] == tracks;
    }

    method QueueSize() returns (n: nat)
      ensures n == |tracks|
    {
      n := |tracks|;
    }

    /** "Play next": after the playing head, else in front. */
    method Next(tr: seq<Track>)
      modifies this
      ensures tracks == PrependResult(old(tracks), tr, playing)
      ensures playing == old(playing) && stop == old(stop) && pause == old(pause)
      ensures streamPaused == old(streamPaused) && sessionStops == old(sessionStops)
    {
      if playing && |tracks| != 0 {
        var t := [tracks[0]] + tr;
        tracks := t + tracks[1..];
      } else {
        tracks := tr + tracks;
      }
    }

    method Append(tr: seq<Track>)
      modifies this
      ensures tracks == old(tracks) + tr
      ensures playing == old(playing) && stop == old(stop) && pause == old(pause)
      ensures streamPaused == old(streamPaused) && sessionStops == old(sessionStops)
    {
      tracks := tracks + tr;
    }

    method Pop()
      modifies this
      ensures tracks == PopResult(old(tracks))
      ensures playing == old(playing) && stop == old(stop) && pause == old(pause)
      ensures streamPaused == old(streamPaused) && sessionStops == old(sessionStops)
    {
      if |tracks| != 0 {
        tracks := tracks[1..];
      }
    }

    method Loop()
      modifies this
      ensures tracks == LoopResult(old(tracks))
      ensures playing == old(playing) && stop == old(stop) && pause == old(pause)
      ensures streamPaused == old(streamPaused) && sessionStops == old(sessionStops)
    {
      if |tracks| > 1 {
        var t := tracks[0];
        tracks := tracks[1..];
        tracks := tracks + [t];
      }
    }

    method Get() returns (t: Option<Track>)
      ensures t == None <==> tracks == []
      ensures t.Some? ==> t.value == tracks[0]
    {
      if |tracks| != 0 {
        return Some(tracks[0]);
      }
      return None;
    }

    /** Unlike the newer queue, this shuffle always keeps index 0 in place,
      whether or not a track is playing. */
    method Shuffle(rnd: nat -> nat)
      modifies this
      ensures ShuffledFrom(old(tracks), tracks, true)
      ensures playing == old(playing) && stop == old(stop) && pause == old(pause)
      ensures streamPaused == old(streamPaused) && sessionStops == old(sessionStops)
    {
      if |tracks| < 2 {
        return;
      }
      var t := tracks[0];
      var ts := ShuffledCopy(tracks[1..], rnd);
      assert tracks == [t] + tracks[1..];
      tracks := [t] + ts;
    }

    method Clear()
      modifies this
      ensures tracks == ClearResult(old(tracks), playing)
      ensures playing == old(playing) && stop == old(stop) && pause == old(pause)
      ensures streamPaused == old(streamPaused) && sessionStops == old(sessionStops)
    {
      if |tracks| == 0 {
        return;
      }
      if playing {
        tracks := [tracks[0]];
      } else {
        tracks := [];
      }
    }
  }
}
