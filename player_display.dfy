/** What the player shows while a track plays (`player/display.go`): the
    elapsed and total time as `MM:SS` or `HH:MM:SS`, a 30-cell progress bar
    with one marker, and the "now playing" card. Durations are Go
    `time.Duration` values, in nanoseconds. */
module PlayerDisplay {
  import opened Wrappers
  import opened GoStrings
  import opened Tracks
  import PlayerControl

  const Millisecond: int := 1_000_000
  const Second: int := 1_000_000_000
  const Minute: int := 60 * Second
  const Hour: int := 3600 * Second

  /** Go's `/` on integers with a positive divisor: truncates toward zero. */
  function Quo(a: int, b: int): int
    requires b > 0
  {
    if a >= 0 then a / b else -((-a) / b)
  }

  /** `Duration.Round(m)` for a positive `m` and a non-negative `d`: the
      remainder is dropped when it is less than half of `m`, else rounded up. */
  function RoundUp(d: nat, m: int): int
    requires m > 0
  {
    var r := d % m;
    if r + r < m then d - r else d + m - r
  }

  /** `Duration.Round(m)`: a negative duration rounds as its opposite does,
      so halfway cases round away from zero. Saturation at the extremes of
      int64 is not modelled. */
  function Round(d: int, m: int): int
    requires m > 0
  {
    if d >= 0 then RoundUp(d, m) else -RoundUp(-d, m)
  }

  /** The hours, minutes and seconds fmtDuration prints. */
  datatype Clock = Clock(h: int, m: int, s: int)

  /** fmtDuration's arithmetic: round, take the whole hours off, then the
      whole minutes, and keep the whole seconds. */
  function Split(d: int): Clock
  {
    ClockOf(Round(d, Second))
  }

  function ClockOf(r: int): Clock
  {
    var h := Quo(r, Hour);
    var r1 := r - h * Hour;
    var m := Quo(r1, Minute);
    var r2 := r1 - m * Minute;
    Clock(h, m, Quo(r2, Second))
  }

  /** `%02d`: at least two characters, zero-padded; a negative number is
      already two characters wide with its sign. */
  function Pad2(n: int): string
  {
    if 0 <= n < 10 then "0" + Itoa(n) else Itoa(n)
  }

  function FmtDuration(d: int): string
  {
    var c := Split(d);
    if c.h > 0 then Pad2(c.h) + ":" + Pad2(c.m) + ":" + Pad2(c.s)
    else Pad2(c.m) + ":" + Pad2(c.s)
  }

  /** Rounding lands on a whole second at most half a second away, and a
      tie between two seconds goes away from zero. */
  lemma RoundToSecond(d: int)
    ensures var r := Round(d, Second);
      r % Second == 0 && 2 * (r - d) <= Second && 2 * (d - r) <= Second &&
      (d >= 0 ==> r >= 0 && 2 * (d - r) < Second) &&
      (d < 0 ==> r <= 0 && 2 * (r - d) < Second)
  {
  }

  /** Division recovers a quotient from its bounds. */
  lemma DivExact(r: int, d: int, q: int)
    requires d > 0 && q * d <= r < q * d + d
    ensures r / d == q
  {
    var q' := r / d;
    if q' > q {
      MulAtLeast(q' - q, d);
      assert false;
    } else if q' < q {
      MulAtLeast(q - q', d);
      assert false;
    }
  }

  /** On a whole number of seconds `k`, the three fields are the hours,
      minutes and seconds of `k`, with the sign of `k`. */
  lemma ClockOfSeconds(k: nat)
    ensures ClockOf(k * Second) == Clock(k / 3600, (k % 3600) / 60, k % 60)
    ensures ClockOf(-(k * Second)) == Clock(-(k / 3600), -((k % 3600) / 60), -(k % 60))
  {
    var r := k * 1_000_000_000;
    var h := k / 3600;
    var m := (k % 3600) / 60;
    var s := (k % 3600) % 60;
    assert k == h * 3600 + m * 60 + s && 0 <= m < 60 && 0 <= s < 60 && s == k % 60;
    assert r == h * 3_600_000_000_000 + m * 60_000_000_000 + s * 1_000_000_000;
    DivExact(r, 3_600_000_000_000, h);
    var r1 := r - h * 3_600_000_000_000;
    DivExact(r1, 60_000_000_000, m);
    var r2 := r1 - m * 60_000_000_000;
    DivExact(r2, 1_000_000_000, s);
  }

  lemma ClockOfWhole(r: int)
    requires r % Second == 0
    ensures var c := ClockOf(r);
      c.h * 3600 + c.m * 60 + c.s == r / Second &&
      (r >= 0 ==> c.h >= 0 && 0 <= c.m < 60 && 0 <= c.s < 60)
  {
    if r >= 0 {
      var k: nat := r / 1_000_000_000;
      assert r == k * 1_000_000_000;
      ClockOfSeconds(k);
      DivExact(r, 1_000_000_000, k);
    } else {
      var k: nat := (-r) / 1_000_000_000;
      assert r == -(k * 1_000_000_000);
      ClockOfSeconds(k);
      DivExact(r, 1_000_000_000, -(k as int));
    }
  }

  /** The printed fields add up to the rounded duration in seconds; for a
      non-negative duration the minutes and seconds are clock values. */
  lemma SplitRecombines(d: int)
    ensures var c := Split(d);
      c.h * 3600 + c.m * 60 + c.s == Round(d, Second) / Second
    ensures var c := Split(d);
      d >= 0 ==> c.h >= 0 && 0 <= c.m < 60 && 0 <= c.s < 60
  {
    RoundToSecond(d);
    ClockOfWhole(Round(d, Second));
  }

  /** A clock value prints as exactly two digits that read back as itself. */
  lemma Pad2RoundTrip(n: int)
    requires 0 <= n < 100
    ensures |Pad2(n)| == 2 && AllDigits(Pad2(n)) && DigitsValue(Pad2(n)) == n
  {
    DigitsRoundTrip(n);
    if n < 10 {
      assert Pad2(n) == "0" + Digits(n);
      assert Pad2(n)[..1] == "0";
    } else {
      assert Digits(n) == Digits(n / 10) + [DigitChar(n % 10)];
    }
  }

  /** The two formats: `HH:MM:SS` from one hour on, `MM:SS` below it, each
      field two digits wide while the hours stay below 100. */
  lemma FmtDurationShape(d: int)
    requires d >= 0
    ensures var c := Split(d);
      (c.h > 0 ==> FmtDuration(d) == Pad2(c.h) + ":" + Pad2(c.m) + ":" + Pad2(c.s)) &&
      (c.h == 0 ==> FmtDuration(d) == Pad2(c.m) + ":" + Pad2(c.s) && |FmtDuration(d)| == 5) &&
      (c.h < 100 ==> |FmtDuration(d)| == if c.h > 0 then 8 else 5)
  {
    SplitRecombines(d);
    var c := Split(d);
    Pad2RoundTrip(c.m);
    Pad2RoundTrip(c.s);
    if 0 < c.h < 100 {
      Pad2RoundTrip(c.h);
    }
  }

  const BarWidth: int := 30

  /** The marker's cell: the position in percent, scaled to the bar and
      clamped to its last cell. */
  function MarkerPos(pb: int, dur: int): int
    requires pb >= 0 && dur > 0
  {
    var pos := (pb * 100 / dur) * BarWidth / 100;
    if pos >= BarWidth then BarWidth - 1 else pos
  }

  /** The bar with its marker at `pos`. */
  function Bar(pos: int): string
  {
    seq(BarWidth, k => if k == pos then '●' else '-')
  }

  lemma DivMonotone(a: int, b: int, c: int)
    requires 0 <= a <= b && c > 0
    ensures a / c <= b / c
  {
    var qa, qb := a / c, b / c;
    if qa > qb {
      MulAtLeast(qa - qb, c);
      assert false;
    }
  }

  lemma MulAtLeast(x: int, c: int)
    requires x >= 1 && c > 0
    ensures x * c >= c
  {
  }

  /** The marker always falls inside the bar, at the start when nothing has
      played yet and at the end once the track has played out; it never
      moves back as playback advances. */
  lemma MarkerBounds(pb: int, pb': int, dur: int)
    requires 0 <= pb <= pb' && dur > 0
    ensures 0 <= MarkerPos(pb, dur) < BarWidth
    ensures pb == 0 ==> MarkerPos(pb, dur) == 0
    ensures pb >= dur ==> MarkerPos(pb, dur) == BarWidth - 1
    ensures MarkerPos(pb, dur) <= MarkerPos(pb', dur)
  {
    var pct, pct' := pb * 100 / dur, pb' * 100 / dur;
    DivMonotone(0, pb * 100, dur);
    DivMonotone(pb * 100, pb' * 100, dur);
    assert 0 <= pct <= pct';
    DivMonotone(0, pct * 30, 100);
    DivMonotone(pct * 30, pct' * 30, 100);
    assert MarkerPos(pb, dur) == if pct * 30 / 100 >= 30 then 29 else pct * 30 / 100;
    assert MarkerPos(pb', dur) == if pct' * 30 / 100 >= 30 then 29 else pct' * 30 / 100;
    if pb >= dur {
      DivExact(dur * 100, dur, 100);
      DivMonotone(dur * 100, pb * 100, dur);
      DivMonotone(3000, pct * 30, 100);
    }
  }

  /** The bar has 30 cells: one marker, all the others dashes. */
  lemma BarShape(pos: int)
    requires 0 <= pos < BarWidth
    ensures |Bar(pos)| == BarWidth && Bar(pos)[pos] == '●'
    ensures forall k | 0 <= k < BarWidth && k != pos :: Bar(pos)[k] == '-'
    ensures multiset(Bar(pos))['●'] == 1
  {
    var b := Bar(pos);
    assert b == b[..pos] + [b[pos]] + b[pos + 1..];
    assert '●' !in multiset(b[..pos]) by {
      assert forall k | 0 <= k < pos :: b[..pos][k] == '-';
    }
    var tail := b[pos + 1..];
    assert '●' !in multiset(tail) by {
      assert forall k | 0 <= k < |tail| :: tail[k] == '-';
    }
  }

  function PlayerLine(pb: int, dur: int): string
    requires pb >= 0 && dur > 0
  {
    FmtDuration(pb) + "  " + Bar(MarkerPos(pb, dur)) + "  " + FmtDuration(dur)
  }

  /** GeneratePlayerString: a dashed rune array with one cell overwritten.
      `pb` is the stream's playback position; a zero `dur` would divide by
      zero in the source, so the caller must not pass one. */
  method GeneratePlayerString(pb: int, dur: int) returns (line: string)
    requires pb >= 0 && dur > 0
    ensures line == PlayerLine(pb, dur)
  {
    var player := new char[30](_ => '-');
    assert player.Length == BarWidth;
    MarkerBounds(pb, pb, dur);
    var pos := (pb * 100 / dur) * player.Length / 100;
    if pos >= player.Length {
      pos := player.Length - 1;
    }
    assert pos == MarkerPos(pb, dur);
    player[pos] := '●';
    assert forall k | 0 <= k < 30 :: player[..][k] == Bar(pos)[k];
    line := FmtDuration(pb) + "  " + player[..] + "  " + FmtDuration(dur);
  }

  /** The card GenerateNowPlayingEmbed returns, given the `Playing` flag, the
      queue, the `short` switch and the playback position. */
  function NowPlaying(playing: bool, tracks: seq<Track>, short: bool, pb: int): Option<Embed>
    requires pb >= 0
    requires playing && tracks != [] ==> tracks[0].duration > 0
  {
    if !playing || tracks == [] then None
    else
      var t := tracks[0];
      var e := TrackEmbed(t).(footer := Some("Added by " + t.username));
      var line := PlayerLine(pb, t.duration * Millisecond);
      if short then Some(e.(fields := [], description := line))
      else Some(e.(description := e.description + line,
                   fields := e.fields + [Field("Queue", TextThenDuration(Itoa(|tracks|) + " tracks left in queue - ", SumDurations(tracks)), false)]))
  }

  /** There is no card unless a track is playing; otherwise the card is the
      head track's, signed with who added it, and carries either the bar
      alone or the bar after the track's fields plus the queue summary. */
  lemma NowPlayingCases(playing: bool, tracks: seq<Track>, short: bool, pb: int)
    requires pb >= 0
    requires playing && tracks != [] ==> tracks[0].duration > 0
    ensures NowPlaying(playing, tracks, short, pb) == None <==> !playing || tracks == []
    ensures NowPlaying(playing, tracks, short, pb).Some? ==>
      var e := NowPlaying(playing, tracks, short, pb).value;
      var t := tracks[0];
      e.title == t.title && e.url == t.permalink && e.footer == Some("Added by " + t.username) &&
      e.description == PlayerLine(pb, t.duration * Millisecond) &&
      (short ==> e.fields == []) &&
      (!short ==> |e.fields| == |TrackEmbed(t).fields| + 1 &&
                  e.fields[..|e.fields| - 1] == TrackEmbed(t).fields &&
                  e.fields[|e.fields| - 1].name == "Queue")
  {
  }

  method GenerateNowPlayingEmbed(p: PlayerControl.Player, short: bool, pb: int) returns (e: Option<Embed>)
    requires pb >= 0
    requires p.state.playing && p.queue.tracks != [] ==> p.queue.tracks[0].duration > 0
    ensures e == NowPlaying(p.state.playing, p.queue.tracks, short, pb)
  {
    if !p.state.playing {
      return None;
    }
    var t := p.queue.Get();
    if t == None {
      return None;
    }
    var tr := t.value;
    var tot := tr.duration * Millisecond;
    var em := TrackEmbed(tr);
    em := em.(footer := Some("Added by " + tr.username));
    var line := GeneratePlayerString(pb, tot);
    if short {
      em := em.(fields := [], description := line);
    } else {
      var n := p.queue.Len();
      var qd := p.queue.Duration();
      em := em.(description := em.description + line,
                fields := em.fields + [Field("Queue", TextThenDuration(Itoa(n) + " tracks left in queue - ", qd), false)]);
    }
    return Some(em);
  }
}
