/** The add and next commands of `commands/add.go`: both check the URL,
    look up the guild's player, then try the link as a playlist and as a
    single track, in that order; add appends what it finds and next puts it
    at the start of the queue. The SoundCloud lookups are inputs (what the
    provider answers for the checked URL); a missing player is a null
    queue. */
module CommandsAdd {
  import opened Wrappers
  import opened GoStrings
  import opened Tracks
  import opened QueueSpec
  import SoundCloudURL
  import PlayerQueue
  import Acl
  import opened Commands
  import opened CommandsPlayer

  const AddCommand: BaseCommand := BaseCommand(
    Acl.Music, Acl.Anyone, "add", ["a"], Options(true, true, false), [],
    Help([Example("add <url>", "Add the track to the end of queue"),
          Example("a <url>", "Add the track using the alias")],
         "add", "", "Add a track or playlist to the end of queue",
         "This command can be used to add tracks and complete playlists to the end of the queue. It currently only suppports soundcloud URLs."))

  const NextCommand: BaseCommand := BaseCommand(
    Acl.Music, Acl.Anyone, "next", ["n"], Options(true, true, false), [],
    Help([Example("next <url>", "Add the track to the start of queue"),
          Example("n <url>", "Add the track using the alias")],
         "next", "", "Add a track or playlist at the start of queue",
         "This command can be used to add tracks and complete playlists at the start of the queue. It currently only suppports soundcloud URLs."))

  datatype AddReply = Said(reply: Reply) | Sent(card: Embed) | Silent

  function Where(atStart: bool): string
  {
    if atStart then "start of queue" else "end of queue"
  }

  /** Where the new tracks go: add appends, next inserts after the playing
      head (or at the front). */
  function Inserted(q: seq<Track>, t: seq<Track>, playing: bool, atStart: bool): seq<Track>
  {
    if atStart then PrependResult(q, t, playing) else q + t
  }

  /** Either way every new track is queued, in order, and nothing is lost. */
  lemma InsertedKeepsAll(q: seq<Track>, t: seq<Track>, playing: bool, atStart: bool)
    ensures multiset(Inserted(q, t, playing, atStart)) == multiset(q) + multiset(t)
    ensures |Inserted(q, t, playing, atStart)| == |q| + |t|
    ensures !atStart ==> Inserted(q, t, playing, atStart)[|q|..] == t
    ensures atStart && !playing ==> Inserted(q, t, playing, atStart)[..|t|] == t
    ensures atStart && playing && q != [] ==> Inserted(q, t, playing, atStart)[1..|t| + 1] == t
  {
    if atStart && playing && q != [] {
      var r := [q[0]] + t + q[1..];
      assert q == [q[0]] + q[1..];
      assert multiset(r) == multiset([q[0]]) + multiset(t) + multiset(q[1..]);
      assert r[1..|t| + 1] == t;
    }
  }

  const NotSoundCloud: Reply := Reply("This doesn't look like a SoundCloud URL", true)
  const NotFound: Reply := Reply("This is neither a playlist nor a track", true)

  /** The add handler (`atStart` false) and the next handler (`atStart`
      true). */
  method Handler(q: PlayerQueue.Queue?, args: seq<string>, atStart: bool,
                 playlist: Result<(seq<Track>, Embed), string>, track: Result<(Track, Embed), string>)
    returns (r: AddReply)
    requires args != []
    modifies q
    ensures SoundCloudURL.Check(args[0]).None? ==> r == Said(NotSoundCloud)
    ensures SoundCloudURL.Check(args[0]).Some? && q == null ==> r == Silent
    ensures q != null && SoundCloudURL.Check(args[0]).Some? && playlist.Ok? ==>
      q.tracks == Inserted(old(q.tracks), playlist.value.0, q.state.playing, atStart) &&
      r == Sent(playlist.value.1.(description := "Added **" + Itoa(|playlist.value.0|) + "** tracks to " + Where(atStart)))
    ensures q != null && SoundCloudURL.Check(args[0]).Some? && playlist.Err? && track.Ok? ==>
      q.tracks == Inserted(old(q.tracks), [track.value.0], q.state.playing, atStart) &&
      r == Sent(track.value.1.(description := "Added one tracks to " + Where(atStart)))
    ensures SoundCloudURL.Check(args[0]).Some? && playlist.Err? && track.Err? && q != null ==> r == Said(NotFound)
    ensures q != null && !(SoundCloudURL.Check(args[0]).Some? && (playlist.Ok? || track.Ok?)) ==>
      q.tracks == old(q.tracks)
  {
    var url := Trim(args[0], SoundCloudURL.AngleBrackets);
    if !HasPrefix(url, SoundCloudURL.Prefix) {
      return Said(NotSoundCloud);
    }
    if q == null {
      return Silent;
    }
    if playlist.Ok? {
      var (tr, e) := playlist.value;
      if atStart {
        q.Prepend(tr);
      } else {
        q.Append(tr);
      }
      return Sent(e.(description := "Added **" + Itoa(|tr|) + "** tracks to " + Where(atStart)));
    }
    if track.Ok? {
      var (t, e) := track.value;
      if atStart {
        q.Prepend([t]);
      } else {
        q.Append([t]);
      }
      return Sent(e.(description := "Added one tracks to " + Where(atStart)));
    }
    return Said(NotFound);
  }
}
