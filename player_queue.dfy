/** The per-guild track queue of `player/queue.go`. The track list is updated
    in place; the `Playing` flag of the shared player state decides whether
    index 0 is protected. The queue's mutex is not modelled (operations run
    one at a time), except in `RemoveNAsWritten`, which shows that the
    source's RemoveN would block on its own lock. */
module PlayerQueue {
  import opened Wrappers
  import opened Tracks
  import opened QueueSpec
  import opened QueueListing
  import PlayerState
  import opened GoRand

  /** The "Current Queue" card for a list of tracks: the listing, then the
      track count and the total duration; no footer. */
  function QueueEmbed(tracks: seq<Track>): Embed
  {
    Embed("Current Queue", "", "", BodyListing(tracks, IntendedLastIndex),
          [Field("Tracks", Text(GoStrings.Itoa(|tracks|)), true),
           Field("Duration", HumanDuration(SumDurations(tracks)), true)],
          None)
  }

  class Queue {
    var tracks: seq<Track>
    const state: PlayerState.State

    /** `NewQueue`: an empty queue reading the given player state. */
    constructor (s: PlayerState.State)
      ensures tracks == [] && state == s
    {
      tracks := [];
      state := s;
    }

    /** Total duration of the queue in milliseconds. */
    method Duration() returns (tot: int)
      ensures tot == SumDurations(tracks)
    {
      tot := 0;
      var i := 0;
      while i < |tracks|
        invariant 0 <= i <= |tracks|
        invariant tot == SumDurations(tracks[..i])
      {
        assert tracks[..i + 1][..i] == tracks[..i];
        tot := tot + tracks[i].duration;
        i := i + 1;
      }
      assert tracks[..i] == tracks;
    }

    method Len() returns (n: nat)
      ensures n == |tracks|
    {
      n := |tracks|;
    }

    /** "Play next". */
    method Prepend(t: seq<Track>)
      modifies this
      ensures tracks == PrependResult(old(tracks), t, state.playing)
    {
      if state.playing && |tracks| != 0 {
        var tr := [tracks[0]] + t;
        tracks := tr + tracks[1..];
      } else {
        tracks := t + tracks;
      }
    }

    method Append(t: seq<Track>)
      modifies this
      ensures tracks == old(tracks) + t
    {
      tracks := tracks + t;
    }

    method Pop()
      modifies this
      ensures tracks == PopResult(old(tracks))
    {
      if |tracks| != 0 {
        tracks := tracks[1..];
      }
    }

    /** Repeat support: the head goes to the tail when there are two or more. */
    method Loop()
      modifies this
      ensures tracks == LoopResult(old(tracks))
    {
      if |tracks| > 1 {
        var t := tracks[0];
        tracks := tracks[1..];
        tracks := tracks + [t];
      }
    }

    /** The head track, or nil; the queue is not changed. */
    method Get() returns (t: Option<Track>)
      ensures t == None <==> tracks == []
      ensures t.Some? ==> t.value == tracks[0]
    {
      if |tracks| != 0 {
        return Some(tracks[0]);
      }
      return None;
    }

    /** Shuffles everything, or everything after the head while playing. */
    method Shuffle(rnd: nat -> nat)
      modifies this
      ensures ShuffledFrom(old(tracks), tracks, state.playing)
    {
      if |tracks| < 2 {
        return;
      }
      if state.playing {
        var t := tracks[0];
        var ts := ShuffledCopy(tracks[1..], rnd);
        assert tracks == [t] + tracks[1..];
        tracks := [t] + ts;
      } else {
        tracks := ShuffledCopy(tracks, rnd);
      }
    }

    method Clear()
      modifies this
      ensures tracks == ClearResult(old(tracks), state.playing)
    {
      if |tracks| == 0 {
        return;
      }
      if state.playing {
        tracks := [tracks[0]];
      } else {
        tracks := [];
      }
    }

    /** Removes the next `n` tracks; falls back to Clear's result when `n`
      reaches the removable part of the queue. The source reaches that
      result by calling Clear while it holds the lock Clear takes; this
      method gives the result the source intends (see RemoveNAsWritten). */
    method RemoveN(n: nat)
      modifies this
      ensures tracks == RemoveNResult(old(tracks), n, state.playing)
    {
      if n >= |tracks| || (state.playing && n + 1 >= |tracks|) {
        Clear();
        return;
      }
      if state.playing {
        tracks := [tracks[0]] + tracks[n + 1..];
      } else {
        tracks := tracks[n..];
      }
    }

    /** The body of the "Current Queue" card, with its Tracks and Duration
      fields; the queue is not changed. */
    method GenerateQueueEmbed() returns (e: Embed)
      ensures e == QueueEmbed(tracks)
      ensures e.title == "Current Queue"
      ensures e.description == BodyListing(tracks, IntendedLastIndex)
      ensures e.fields == [
        Field("Tracks", Text(GoStrings.Itoa(|tracks|)), true),
        Field("Duration", HumanDuration(SumDurations(tracks)), true)]
    {
      var body, tot := BuildListing(tracks);
      e := Embed("Current Queue", "", "", body,
                 [Field("Tracks", Text(GoStrings.Itoa(|tracks|)), true),
                  Field("Duration", HumanDuration(tot), true)],
                 None);
    }
  }

  /** How a call ends under Go's non-reentrant `sync.Mutex`. */
  datatype Outcome<T> = Returned(value: T) | Deadlocked

  /** Clear as written: it starts with `q.Lock()`, which never returns when
      the calling goroutine already holds the lock. */
  function ClearAsWritten(q: seq<Track>, playing: bool, lockHeld: bool): Outcome<seq<Track>>
  {
    if lockHeld then Deadlocked else Returned(ClearResult(q, playing))
  }

  /** RemoveN as written: it takes the lock, then calls Clear in its first
      branch while still holding it. */
  function RemoveNAsWritten(q: seq<Track>, n: nat, playing: bool): Outcome<seq<Track>>
  {
    var lockHeld := true;
    if n >= |q| || (playing && n + 1 >= |q|) then ClearAsWritten(q, playing, lockHeld)
    else if playing then Returned([q[0]] + q[n + 1..])
    else Returned(q[n..])
  }

  /** RemoveN as written blocks forever exactly when it falls back to Clear,
      and otherwise agrees with the intended result. */
  lemma RemoveNAsWrittenBlocks(q: seq<Track>, n: nat, playing: bool)
    ensures RemoveNAsWritten(q, n, playing) == Deadlocked <==> (n >= |q| || (playing && n + 1 >= |q|))
    ensures RemoveNAsWritten(q, n, playing).Returned? ==>
              RemoveNAsWritten(q, n, playing).value == RemoveNResult(q, n, playing)
  {
  }

  /** A concrete case: `remove 5` on a three-track queue never returns. */
  lemma RemoveFiveOfThreeBlocks(a: Track, b: Track, c: Track, playing: bool)
    ensures RemoveNAsWritten([a, b, c], 5, playing) == Deadlocked
  {
  }
}
