/** Go's `math/rand` shuffle, with the generator's choices as a parameter:
    only the fact that a shuffle permutes its input is modelled. */
module GoRand {
  import opened Tracks

  /** Go's `rand.Shuffle(n, swap)`: for `i` from `n-1` down to 1, swap `i`
      with a pseudo-random `j` in `0..i`. `rnd` stands for the generator. */
  method RandShuffle(a: array<Track>, rnd: nat -> nat)
    modifies a
    ensures multiset(a[..]) == old(multiset(a[..]))
  {
    var i := a.Length - 1;
    while i > 0
      invariant -1 <= i < a.Length
      invariant multiset(a[..]) == old(multiset(a[..]))
    {
      var j := rnd(i) % (i + 1);
      a[i], a[j] := a[j], a[i];
      i := i - 1;
    }
  }

  /** Copies a slice into a fresh backing array, shuffles it in place and
      reads it back. */
  method ShuffledCopy(s: seq<Track>, rnd: nat -> nat) returns (r: seq<Track>)
    ensures multiset(r) == multiset(s) && |r| == |s|
  {
    var a := new Track[|s|](k requires 0 <= k < |s| => s[k]);
    assert a[..] == s;
    RandShuffle(a, rnd);
    r := a[..];
    assert |r| == |multiset(r)| == |multiset(s)| == |s|;
  }
}
