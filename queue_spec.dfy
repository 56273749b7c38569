/** What each queue operation does to the track list, as a function of the
    old list and of the `Playing` flag. Both generations of the queue
    (`player/queue.go` and the older `bot/queue.go`) are proved against these
    definitions, and the lemmas below state what they promise: order and
    length for the insertions, exactly-the-head for Pop, rotation for Loop,
    and the protected head while a track is playing. */
module QueueSpec {
  import opened Tracks

  /** "Play next": right after the playing head, else at the very front. */
  function PrependResult(q: seq<Track>, t: seq<Track>, playing: bool): seq<Track>
  {
    if playing && |q| != 0 then [q[0]] + t + q[1..] else t + q
  }

  function PopResult(q: seq<Track>): seq<Track>
  {
    if |q| != 0 then q[1..] else q
  }

  function LoopResult(q: seq<Track>): seq<Track>
  {
    if |q| > 1 then q[1..] + [q[0]] else q
  }

  function ClearResult(q: seq<Track>, playing: bool): seq<Track>
  {
    if |q| == 0 then q else if playing then [q[0]] else []
  }

  /** `n` is a count of tracks; Go's slicing with a negative `n` would panic. */
  function RemoveNResult(q: seq<Track>, n: nat, playing: bool): seq<Track>
  {
    if n >= |q| || (playing && n + 1 >= |q|) then ClearResult(q, playing)
    else if playing then [q[0]] + q[n + 1..]
    else q[n..]
  }

  /** A shuffle outcome: nothing moves for fewer than two tracks; otherwise
      the same tracks in some order, with the head kept in place when
      `keepHead` holds. */
  ghost predicate ShuffledFrom(before: seq<Track>, after: seq<Track>, keepHead: bool)
  {
    if |before| < 2 then after == before
    else multiset(after) == multiset(before) && |after| == |before| &&
         (keepHead ==> after[0] == before[0])
  }

  /** Append keeps both orders: the old tracks first, then the new ones. */
  lemma AppendOrder(q: seq<Track>, t: seq<Track>)
    ensures |q + t| == |q| + |t|
    ensures forall k | 0 <= k < |q| :: (q + t)[k] == q[k]
    ensures forall k | 0 <= k < |t| :: (q + t)[|q| + k] == t[k]
    ensures SumDurations(q + t) == SumDurations(q) + SumDurations(t)
  {
    SumDurationsAppend(q, t);
  }

  /** Play-next grows the queue by exactly the new tracks, keeps the playing
      head in front, puts the first new track next in line, and keeps both
      the new tracks' order and the rest of the old queue's order. */
  lemma PrependOrder(q: seq<Track>, t: seq<Track>, playing: bool)
    ensures var r := PrependResult(q, t, playing);
      var at := if playing && |q| != 0 then 1 else 0;
      |r| == |q| + |t| &&
      multiset(r) == multiset(q) + multiset(t) &&
      (at == 1 ==> r[0] == q[0]) &&
      (forall k | 0 <= k < |t| :: r[at + k] == t[k]) &&
      (forall k | at <= k < |q| :: r[|t| + k] == q[k])
  {
    var r := PrependResult(q, t, playing);
    if playing && |q| != 0 {
      assert q == [q[0]] + q[1..];
      assert r == [q[0]] + t + q[1..];
      assert multiset(r) == multiset([q[0]]) + multiset(t) + multiset(q[1..]);
      assert multiset(q) == multiset([q[0]]) + multiset(q[1..]);
    }
  }

  /** Prepending while idle and then popping as many tracks as were added
      gives back the old queue. */
  lemma {:induction false} PrependIdleThenPop(q: seq<Track>, t: seq<Track>)
    ensures PopN(PrependResult(q, t, false), |t|) == q
    decreases |t|
  {
    if |t| > 0 {
      assert PopResult(t + q) == t[1..] + q;
      PrependIdleThenPop(q, t[1..]);
    }
  }

  function PopN(q: seq<Track>, n: nat): seq<Track>
  {
    if n == 0 then q else PopN(PopResult(q), n - 1)
  }

  /** Pop removes exactly the head of a non-empty queue. */
  lemma PopRemovesHead(q: seq<Track>)
    ensures q != [] ==> [q[0]] + PopResult(q) == q
    ensures q == [] ==> PopResult(q) == []
    ensures |PopResult(q)| == if q == [] then 0 else |q| - 1
  {
  }

  /** Loop moves the head to the tail: same tracks, same length, and the old
      head is now last while the old second track is now first. */
  lemma LoopRotates(q: seq<Track>)
    ensures var r := LoopResult(q);
      |r| == |q| && multiset(r) == multiset(q) &&
      (|q| > 1 ==> r[|r| - 1] == q[0] && r[0] == q[1] &&
                   forall k | 0 <= k < |q| - 1 :: r[k] == q[k + 1])
  {
    if |q| > 1 {
      assert q == [q[0]] + q[1..];
      assert multiset(q) == multiset([q[0]]) + multiset(q[1..]);
    }
  }

  /** Clear keeps at most the playing head, and clearing twice is clearing once. */
  lemma ClearKeepsOnlyHead(q: seq<Track>, playing: bool)
    ensures var r := ClearResult(q, playing);
      (q == [] ==> r == []) &&
      (q != [] && playing ==> r == [q[0]]) &&
      (!playing ==> r == []) &&
      ClearResult(r, playing) == r
  {
  }

  /** RemoveN: zero removes nothing; when the count reaches the removable
      part the result is Clear's; otherwise the `n` tracks after the playing
      head (or the first `n` when idle) go, and the rest keeps its order. */
  lemma RemoveNSpec(q: seq<Track>, n: nat, playing: bool)
    ensures var r := RemoveNResult(q, n, playing);
      var h := if playing && q != [] then 1 else 0;
      var removable := |q| - h;
      (n == 0 ==> r == q) &&
      (n >= removable ==> r == ClearResult(q, playing)) &&
      (n < removable ==> |r| == |q| - n) &&
      (playing && q != [] ==> r != [] && r[0] == q[0]) &&
      h <= |r| <= |q| && r[h..] == q[|q| - |r| + h..]
  {
    var r := RemoveNResult(q, n, playing);
    if n == 0 && playing && q != [] {
      assert r == [q[0]] + q[1..];
    }
  }

  /** The example of a five-track queue while playing: removing two keeps the
      playing track and drops the two after it. */
  lemma RemoveNExample(a: Track, b: Track, c: Track, d: Track, e: Track)
    ensures RemoveNResult([a, b, c, d, e], 2, true) == [a, d, e]
    ensures RemoveNResult([a, b, c, d, e], 2, false) == [c, d, e]
    ensures RemoveNResult([a, b, c, d, e], 4, true) == [a]
  {
  }

  /** The protected head: while a track is playing, no bulk operation and no
      insertion moves or removes index 0. */
  lemma ProtectedHead(q: seq<Track>, t: seq<Track>, n: nat, after: seq<Track>)
    requires q != []
    requires ShuffledFrom(q, after, true)
    ensures PrependResult(q, t, true)[0] == q[0]
    ensures ClearResult(q, true)[0] == q[0]
    ensures RemoveNResult(q, n, true)[0] == q[0]
    ensures after[0] == q[0]
    ensures (q + t)[0] == q[0]
  {
  }

  /** A shuffle neither adds, drops nor duplicates tracks, so the queue's
      length and total duration are what they were. */
  lemma ShufflePreservesTotals(before: seq<Track>, after: seq<Track>, keepHead: bool)
    requires ShuffledFrom(before, after, keepHead)
    ensures |after| == |before|
    ensures SumDurations(after) == SumDurations(before)
  {
    if |before| >= 2 {
      SumDurationsPermutation(before, after);
    }
  }
}
