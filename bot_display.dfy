/** The older bot's cards (`bot/display.go`): the "now playing" card posted
    when a track starts and the "Current Queue" card. */
module BotDisplay {
  import opened Wrappers
  import opened GoStrings
  import opened Tracks
  import opened QueueListing
  import BotQueue

  /** The four statistics fields, as the older card lays them out. */
  function StatsFields(t: Track): seq<Field>
  {
    [Field("Plays", Text(Itoa(t.playbackCount)), true),
     Field("Likes", Text(Itoa(t.likesCount)), true),
     Field("Reposts", Text(Itoa(t.repostsCount)), true),
     Field("Duration", HumanDuration(t.duration), true)]
  }

  /** The card's statistics are the newer track card's first four fields. */
  lemma StatsFieldsAgree(t: Track)
    ensures StatsFields(t) == TrackEmbed(t).fields[..4]
  {
  }

  /** The card for the track that starts; its footer counts the tracks in
      the queue, the starting one included. */
  method SendNowPlaying(p: BotQueue.Player, t: Track) returns (e: Embed)
    ensures e == Embed(t.title, t.permalink, t.username, "**Now Playing**", StatsFields(t),
                       Some(Itoa(|p.tracks|) + " tracks left in queue"))
  {
    e := Embed(t.title, t.permalink, t.username, "**Now Playing**", StatsFields(t),
               Some(Itoa(|p.tracks|) + " tracks left in queue"));
  }

  /** The queue card for a list of tracks, asked for by `author`. */
  function QueueCard(tracks: seq<Track>, author: string, prefix: string): Embed
  {
    Embed("Current Queue", "", "", BodyListing(tracks, IntendedLastIndex),
          [Field("Tracks", Text(Itoa(|tracks|)), true),
           Field("Duration", HumanDuration(SumDurations(tracks)), true),
           Field("Requested by", Text("<@" + author + ">"), true)],
          Some("Tip: Add new tracks using '" + prefix + " add' or '" + prefix + " next'"))
  }

  /** The queue card: the listing of the first tracks, then the Tracks,
      Duration and "Requested by" fields. */
  method DisplayQueue(p: BotQueue.Player, author: string, prefix: string) returns (e: Embed)
    ensures e == QueueCard(p.tracks, author, prefix)
    ensures e.title == "Current Queue"
    ensures e.description == BodyListing(p.tracks, IntendedLastIndex)
    ensures e.fields == [
      Field("Tracks", Text(Itoa(|p.tracks|)), true),
      Field("Duration", HumanDuration(SumDurations(p.tracks)), true),
      Field("Requested by", Text("<@" + author + ">"), true)]
    ensures e.footer == Some("Tip: Add new tracks using '" + prefix + " add' or '" + prefix + " next'")
  {
    var body, tot := BuildListing(p.tracks);
    e := Embed("Current Queue", "", "", body,
               [Field("Tracks", Text(Itoa(|p.tracks|)), true),
                Field("Duration", HumanDuration(tot), true),
                Field("Requested by", Text("<@" + author + ">"), true)],
               Some("Tip: Add new tracks using '" + prefix + " add' or '" + prefix + " next'"));
  }
}
