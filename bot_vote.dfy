/** Vote to skip (`bot/vote.go`): each member may vote once; the second
    distinct vote skips the playing track (by stopping the encode session)
    or, when nothing plays, drops the next track, and the ballot starts
    over. The vote mutex is not modelled. */
module BotVote {
  import opened Wrappers
  import opened GoStrings
  import opened QueueSpec
  import BotQueue

  const VoteThreshold: nat := 2

  class VoteHolder {
    /** The IDs of the members who voted since the last reset. */
    var voters: set<string>

    constructor ()
      ensures voters == {}
    {
      voters := {};
    }

    method Reset()
      modifies this
      ensures voters == {}
    {
      voters := {};
    }
  }

  /** The embed the handler posts. */
  datatype Reply = Reply(description: string, footer: Option<string>)

  /** What one vote does: the new voter set, the reply (none for a repeated
      vote), and whether the session is stopped or the head popped. */
  datatype VoteEffect = VoteEffect(voters: set<string>, reply: Option<Reply>, stopSession: bool, popHead: bool)

  function VoteStep(voters: set<string>, author: string, playing: bool): VoteEffect
  {
    if author in voters then VoteEffect(voters, None, false, false)
    else
      var v := voters + {author};
      var base := "<@" + author + "> voted to skip this track";
      if |v| >= VoteThreshold then
        if playing then
          VoteEffect({}, Some(Reply(base + "\n" + Itoa(|v|) + " total votes, skipping current track",
                                    Some("Note: This may take a few seconds"))), true, false)
        else
          VoteEffect({}, Some(Reply(base + "\n" + Itoa(|v|) + " total votes, the next track in queue has been skipped",
                                    None)), false, true)
      else
        VoteEffect(v, Some(Reply(base + "\n" + Itoa(|v|) + "/" + Itoa(VoteThreshold) +
                                 (if playing then " votes to skip this track" else " votes to skip the next track"),
                                 None)), false, false)
  }

  /** A member who already voted changes nothing and gets no reply. */
  lemma RepeatedVoteIgnored(voters: set<string>, author: string, playing: bool)
    requires author in voters
    ensures VoteStep(voters, author, playing) == VoteEffect(voters, None, false, false)
  {
  }

  /** A new vote counts the member: below the threshold the ballot keeps
      every vote so far and nothing is skipped; at the threshold exactly one
      action is taken, the session stop while playing and the pop when idle,
      and the ballot is emptied. */
  lemma NewVoteCounted(voters: set<string>, author: string, playing: bool)
    requires author !in voters
    ensures var e := VoteStep(voters, author, playing);
      e.reply.Some? &&
      (|voters + {author}| < VoteThreshold ==> e.voters == voters + {author} && !e.stopSession && !e.popHead) &&
      (|voters + {author}| >= VoteThreshold ==> e.voters == {} && e.stopSession == playing && e.popHead == !playing)
  {
  }

  /** The ballot never holds more than one vote between calls. */
  lemma BallotStaysSmall(voters: set<string>, author: string, playing: bool)
    requires |voters| <= 1
    ensures |VoteStep(voters, author, playing).voters| <= 1
  {
    if author !in voters {
      assert |voters + {author}| == |voters| + 1;
    }
  }

  /** From an empty ballot, two different members skip; the same member
      twice does not. */
  lemma TwoMembersSkip(a: string, b: string, playing: bool)
    ensures var first := VoteStep({}, a, playing);
      first.voters == {a} && !first.stopSession && !first.popHead &&
      VoteStep(first.voters, a, playing) == VoteEffect({a}, None, false, false) &&
      (a != b ==> var second := VoteStep(first.voters, b, playing);
                  second.voters == {} && (second.stopSession || second.popHead))
  {
    if a != b {
      assert |{a} + {b}| == 2;
    }
  }

  method VoteHandler(vote: VoteHolder, player: BotQueue.Player, author: string) returns (reply: Option<Reply>)
    modifies vote, player
    ensures var e := VoteStep(old(vote.voters), author, old(player.playing));
      vote.voters == e.voters && reply == e.reply &&
      player.sessionStops == old(player.sessionStops) + (if e.stopSession then 1 else 0) &&
      player.tracks == (if e.popHead then PopResult(old(player.tracks)) else old(player.tracks))
    ensures player.playing == old(player.playing) && player.stop == old(player.stop) && player.pause == old(player.pause)
    ensures player.streamPaused == old(player.streamPaused)
  {
    if author in vote.voters {
      return None;
    }
    vote.voters := vote.voters + {author};
    var description := "<@" + author + "> voted to skip this track";
    var footer := None;
    var n := |vote.voters|;
    if n >= 2 {
      if player.playing {
        player.sessionStops := player.sessionStops + 1;
        description := description + "\n" + Itoa(n) + " total votes, skipping current track";
        footer := Some("Note: This may take a few seconds");
      } else {
        player.Pop();
        description := description + "\n" + Itoa(n) + " total votes, the next track in queue has been skipped";
      }
      vote.voters := {};
    } else {
      if player.playing {
        description := description + "\n" + Itoa(n) + "/" + Itoa(VoteThreshold) + " votes to skip this track";
      } else {
        description := description + "\n" + Itoa(n) + "/" + Itoa(VoteThreshold) + " votes to skip the next track";
      }
    }
    return Some(Reply(description, footer));
  }
}
