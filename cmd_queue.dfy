/** The queue command of `commands/queue.go`: `shuffle` (or `s`) shuffles
    the queue when it holds at least two tracks; anything else shows the
    "Current Queue" card. */
module CommandsQueue {
  import opened GoStrings
  import opened Tracks
  import opened QueueSpec
  import opened QueueListing
  import PlayerQueue
  import Acl
  import opened Commands
  import opened CommandsPlayer

  const QueueCommand: BaseCommand := BaseCommand(
    Acl.Music, Acl.Anyone, "queue", ["q"], Options(false, true, false), [],
    Help([Example("queue", "Display the queue"),
          Example("queue shuffle", "Shuffle the queue"),
          Example("q", "Display the queue with the alias")],
         "queue", "", "Display or modify the queue",
         "This command will display the current queue. It can also shuffle the current queue if the `shuffle` argument is passed."))

  predicate AsksShuffle(args: seq<string>)
  {
    |args| > 0 && (args[0] == "shuffle" || args[0] == "s")
  }

  datatype QueueReply = Said(reply: Reply) | Shown(card: Embed)

  /** Handler: a shuffle request on a short queue is refused and changes
      nothing; a shuffle of two or more tracks reorders them (the playing
      head stays) and reports how many; any other input shows the queue
      card, unchanged. */
  method Handler(q: PlayerQueue.Queue, author: string, args: seq<string>, rnd: nat -> nat) returns (r: QueueReply)
    modifies q
    ensures AsksShuffle(args) && |old(q.tracks)| < 2 ==>
      q.tracks == old(q.tracks) && r == Said(Reply("There is not enough tracks to shuffle", true))
    ensures AsksShuffle(args) && |old(q.tracks)| >= 2 ==>
      ShuffledFrom(old(q.tracks), q.tracks, q.state.playing) &&
      r == Said(Reply("🎲 Shuffled **" + Itoa(|old(q.tracks)|) + "** tracks for " + Mention(author), false))
    ensures !AsksShuffle(args) ==>
      q.tracks == old(q.tracks) && r == Shown(PlayerQueue.QueueEmbed(q.tracks))
  {
    if AsksShuffle(args) {
      var n := q.Len();
      if n < 2 {
        return Said(Reply("There is not enough tracks to shuffle", true));
      }
      q.Shuffle(rnd);
      n := q.Len();
      return Said(Reply("🎲 Shuffled **" + Itoa(n) + "** tracks for " + Mention(author), false));
    }
    var e := q.GenerateQueueEmbed();
    return Shown(e);
  }
}
