/** A SoundCloud track as the queues hold it, and the display strings, stream
    lookup and embed that `tracks/soundcloud.go` derives from it. */
module Tracks {
  import opened Wrappers
  import opened GoStrings

  /** The playlist a track was resolved from, when it was. */
  datatype Playlist = Playlist(title: string, permalink: string, ownerName: string, ownerPermalink: string)

  /** The SoundCloud track record; `duration` is in milliseconds. */
  datatype Track = Track(
    title: string,
    username: string,
    userPermalink: string,
    avatarURL: string,
    permalink: string,
    artworkURL: string,
    duration: int,
    playbackCount: int,
    likesCount: int,
    repostsCount: int,
    playlist: Option<Playlist>)

  /** Total duration of a list of tracks, summed from the front as Go's
      `for _, t := range tracks { tot += t.Duration() }` does. */
  function SumDurations(ts: seq<Track>): int
  {
    if ts == [] then 0 else SumDurations(ts[..|ts| - 1]) + ts[|ts| - 1].duration
  }

  lemma {:induction false} SumDurationsAppend(a: seq<Track>, b: seq<Track>)
    ensures SumDurations(a + b) == SumDurations(a) + SumDurations(b)
    decreases |b|
  {
    if b == [] {
      assert a + b == a;
    } else {
      assert (a + b)[..|a + b| - 1] == a + b[..|b| - 1];
      assert (a + b)[|a + b| - 1] == b[|b| - 1];
      SumDurationsAppend(a, b[..|b| - 1]);
    }
  }

  /** The total duration does not depend on the order of the tracks. */
  lemma {:induction false} SumDurationsPermutation(a: seq<Track>, b: seq<Track>)
    requires multiset(a) == multiset(b)
    ensures SumDurations(a) == SumDurations(b)
    decreases |a|
  {
    if a != [] {
      var x := a[|a| - 1];
      var a' := a[..|a| - 1];
      assert a == a' + [x];
      assert x in multiset(b);
      var j :| 0 <= j < |b| && b[j] == x;
      var b' := b[..j] + b[j + 1..];
      assert b == b[..j] + [x] + b[j + 1..];
      assert multiset(b) == multiset(b[..j]) + multiset{x} + multiset(b[j + 1..]);
      assert b' == b[..j] + b[j + 1..];
      assert multiset(b') == multiset(b[..j]) + multiset(b[j + 1..]);
      assert multiset(a) == multiset(a') + multiset{x};
      forall y ensures multiset(a')[y] == multiset(b')[y] {
        assert multiset(a)[y] == multiset(b)[y];
      }
      assert multiset(a') == multiset(b');
      SumDurationsPermutation(a', b');
      SumDurationsAppend(b[..j] + [x], b[j + 1..]);
      SumDurationsAppend(b[..j], [x]);
      SumDurationsAppend(b[..j], b[j + 1..]);
      assert [x][..0] == [];
    }
  }

  /** The bot's "listening to" status line. */
  function ListenStatus(t: Track): string
  {
    t.title + " - " + t.username
  }

  /** One queue-listing line: a Markdown link labelled with the status line. */
  function MarkdownLink(t: Track): string
  {
    "[" + t.title + " - " + t.username + "](" + t.permalink + ")\n"
  }

  /** The link line is the status line wrapped in Markdown link syntax, and
      the title and user name can be read back from the status line. */
  lemma MarkdownLinkWrapsStatus(t: Track)
    ensures MarkdownLink(t) == "[" + ListenStatus(t) + "](" + t.permalink + ")\n"
    ensures ListenStatus(t)[..|t.title|] == t.title
    ensures ListenStatus(t)[|t.title| + 3..] == t.username
    ensures |MarkdownLink(t)| == |t.title| + |t.username| + |t.permalink| + 8
  {
  }

  /** The SoundCloud stream kinds, in the order `StreamURL` tries them. */
  datatype StreamType = Opus | HLSMP3 | ProgressiveMP3

  const KnownTypes: seq<StreamType> := [Opus, HLSMP3, ProgressiveMP3]

  /** What one stream lookup returns: Go's `(url, err)` pair. */
  datatype Lookup = Lookup(url: string, err: Option<string>)

  /** The fallback rule: the first lookup without error wins; when all fail,
      the last lookup's pair is returned (`last` before any attempt). */
  function Fallback(types: seq<StreamType>, stream: StreamType -> Lookup, last: Lookup): Lookup
  {
    if types == [] then last
    else if stream(types[0]).err == None then Lookup(stream(types[0]).url, None)
    else Fallback(types[1..], stream, stream(types[0]))
  }

  /** `StreamURL` asks for each known stream type in turn; `stream` stands for
      the SoundCloud API call `ts.Stream(st)`. */
  method StreamURL(stream: StreamType -> Lookup) returns (url: string, err: Option<string>)
    ensures Lookup(url, err) == Fallback(KnownTypes, stream, Lookup("", None))
  {
    url, err := "", None;
    var i := 0;
    while i < |KnownTypes|
      invariant 0 <= i <= |KnownTypes|
      invariant i > 0 ==> Lookup(url, err) == stream(KnownTypes[i - 1])
      invariant forall k | 0 <= k < i :: stream(KnownTypes[k]).err != None
      invariant Fallback(KnownTypes, stream, Lookup("", None)) == Fallback(KnownTypes[i..], stream, Lookup(url, err))
    {
      var r := stream(KnownTypes[i]);
      url, err := r.url, r.err;
      if err == None {
        return url, None;
      }
      i := i + 1;
    }
  }

  /** The fallback succeeds exactly when some type succeeds, and then yields
      the URL of the first type that succeeds; otherwise it yields the last
      failure. */
  lemma {:induction false} FallbackSpec(types: seq<StreamType>, stream: StreamType -> Lookup, last: Lookup)
    requires types != []
    ensures var r := Fallback(types, stream, last);
      (r.err == None <==> exists k :: 0 <= k < |types| && stream(types[k]).err == None) &&
      (forall k | 0 <= k < |types| && stream(types[k]).err == None && (forall j | 0 <= j < k :: stream(types[j]).err != None) ::
         r.url == stream(types[k]).url) &&
      ((forall k | 0 <= k < |types| :: stream(types[k]).err != None) ==> r == stream(types[|types| - 1]))
  {
    if stream(types[0]).err != None && |types| > 1 {
      FallbackSpec(types[1..], stream, stream(types[0]));
      var r := Fallback(types, stream, last);
      if r.err == None {
        var k :| 0 <= k < |types[1..]| && stream(types[1..][k]).err == None;
        assert stream(types[k + 1]).err == None;
      }
      forall k | 0 <= k < |types| && stream(types[k]).err == None && (forall j | 0 <= j < k :: stream(types[j]).err != None)
        ensures r.url == stream(types[k]).url
      {
        assert k > 0;
        assert types[k] == types[1..][k - 1];
      }
    }
  }

  /** A field of a Discord embed. A value is text, a duration in
      milliseconds that the `durafmt` library renders in words, or text
      followed by such a rendering. */
  datatype FieldValue = Text(text: string) | HumanDuration(ms: int) | TextThenDuration(prefix: string, ms: int)
  datatype Field = Field(name: string, value: FieldValue, inline: bool)

  /** The part of a Discord embed the bot fills in. */
  datatype Embed = Embed(
    title: string, url: string, authorName: string, description: string,
    fields: seq<Field>, footer: Option<string>)

  function PlaylistField(p: Playlist): Field
  {
    Field("In Playlist", Text("[" + p.title + "](" + p.permalink + ") by [" + p.ownerName + "](" + p.ownerPermalink + ")"), false)
  }

  /** The track card: four statistics fields, then the playlist field when
      the track came from a playlist. */
  function TrackEmbed(t: Track): Embed
  {
    var base := [
      Field("Plays", Text(Itoa(t.playbackCount)), true),
      Field("Likes", Text(Itoa(t.likesCount)), true),
      Field("Reposts", Text(Itoa(t.repostsCount)), true),
      Field("Duration", HumanDuration(t.duration), true)];
    Embed(t.title, t.permalink, t.username, "",
          if t.playlist.Some? then base + [PlaylistField(t.playlist.value)] else base,
          None)
  }

  lemma TrackEmbedFields(t: Track)
    ensures var e := TrackEmbed(t);
      |e.fields| == (if t.playlist.Some? then 5 else 4) &&
      e.fields[0].name == "Plays" && e.fields[1].name == "Likes" &&
      e.fields[2].name == "Reposts" && e.fields[3] == Field("Duration", HumanDuration(t.duration), true) &&
      (forall k | 0 <= k < |e.fields| :: e.fields[k].name == "In Playlist" <==> k == 4)
  {
  }
}
