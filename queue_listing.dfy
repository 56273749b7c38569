/** The "Current Queue" card: a Markdown line per listed track, a note on how
    many tracks were not listed, the track count and the total duration.
    `bot/display.go` (DisplayQueue) and `player/queue.go`
    (GenerateQueueEmbed) build the same body with the same loop. */
module QueueListing {
  import opened Wrappers
  import opened GoStrings
  import opened Tracks

  const EmptyQueueText: string := "There is currently no track in queue"

  /** The Markdown lines of `ts`, in order. */
  function Links(ts: seq<Track>): string
  {
    if ts == [] then "" else Links(ts[..|ts| - 1]) + MarkdownLink(ts[|ts| - 1])
  }

  /** How many tracks the loop lists when it lists indices `0..lastIndex`. */
  function ShownCount(n: nat, lastIndex: nat): nat
  {
    if n <= lastIndex + 1 then n else lastIndex + 1
  }

  /** The number the "And N other tracks" line reports. */
  function OthersReported(n: nat): int
  {
    if n > 10 then n - 10 else 0
  }

  function OthersLine(n: nat): string
  {
    if n > 10 then "\nAnd **" + Itoa(n - 10) + "** other tracks" else ""
  }

  /** The card body when the loop lists indices `0..lastIndex`. */
  function BodyListing(ts: seq<Track>, lastIndex: nat): string
  {
    if |ts| > 0 then Links(ts[..ShownCount(|ts|, lastIndex)]) + OthersLine(|ts|)
    else EmptyQueueText
  }

  /** The source's cut-off: `if i <= 10`, so indices 0 to 10 are listed. */
  const AsWrittenLastIndex: nat := 10

  /** The cut-off that agrees with the "And len-10 other tracks" line. */
  const IntendedLastIndex: nat := 9

  /** The loop of DisplayQueue / GenerateQueueEmbed: every track adds to the
      total, only the first ten add a line. The source's test is `i <= 10`
      (see ListingAsWritten); this loop stops at index 9 so that the listed
      lines and the "other tracks" count add up to the queue length. */
  method BuildListing(ts: seq<Track>) returns (body: string, tot: int)
    ensures body == BodyListing(ts, IntendedLastIndex)
    ensures tot == SumDurations(ts)
  {
    body, tot := "", 0;
    if |ts| > 0 {
      var i := 0;
      while i < |ts|
        invariant 0 <= i <= |ts|
        invariant body == Links(ts[..ShownCount(i, IntendedLastIndex)])
        invariant tot == SumDurations(ts[..i])
      {
        assert ts[..i + 1][..i] == ts[..i];
        if i <= 9 {
          assert ts[..i + 1][..i] == ts[..ShownCount(i, IntendedLastIndex)];
          body := body + MarkdownLink(ts[i]);
        }
        tot := tot + ts[i].duration;
        i := i + 1;
      }
      assert ts[..i] == ts;
      if |ts| > 10 {
        body := body + "\nAnd **" + Itoa(|ts| - 10) + "** other tracks";
      }
    } else {
      body := EmptyQueueText;
    }
  }

  /** The listing lines are the tracks' links in queue order. */
  lemma {:induction false} LinksAppend(a: seq<Track>, b: seq<Track>)
    ensures Links(a + b) == Links(a) + Links(b)
    decreases |b|
  {
    if b == [] {
      assert a + b == a;
    } else {
      assert (a + b)[..|a + b| - 1] == a + b[..|b| - 1];
      LinksAppend(a, b[..|b| - 1]);
    }
  }

  /** The card body of the source: an empty queue gives exactly the fixed
      text; otherwise the body starts with the links of the listed tracks,
      which are at most eleven, and a longer queue gets the "other tracks"
      line. With more than ten tracks, the listed lines plus the reported
      rest come to one more than the queue holds. */
  lemma ListingAsWritten(ts: seq<Track>)
    ensures ts == [] ==> BodyListing(ts, AsWrittenLastIndex) == EmptyQueueText
    ensures ts != [] ==> var shown := ShownCount(|ts|, AsWrittenLastIndex);
      shown == (if |ts| <= 11 then |ts| else 11) &&
      BodyListing(ts, AsWrittenLastIndex) == Links(ts[..shown]) + OthersLine(|ts|)
    ensures |ts| > 10 ==> ShownCount(|ts|, AsWrittenLastIndex) + OthersReported(|ts|) == |ts| + 1
  {
  }

  /** With the cut-off at index 9, the listed lines plus the reported rest
      account for every track exactly once. */
  lemma ListingIntended(ts: seq<Track>)
    ensures ShownCount(|ts|, IntendedLastIndex) + OthersReported(|ts|) == |ts|
    ensures ShownCount(|ts|, IntendedLastIndex) <= 10
  {
  }

  /** A concrete input: with twelve tracks the card lists eleven of them and
      then says two more follow, though only one does. */
  lemma TwelveTracksMiscounted(ts: seq<Track>)
    requires |ts| == 12
    ensures ShownCount(|ts|, AsWrittenLastIndex) == 11
    ensures OthersLine(|ts|) == "\nAnd **2** other tracks"
  {
  }
}
