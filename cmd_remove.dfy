/** The remove command of `commands/remove.go`: `all` (or `a`, `-a`) clears
    the queue, a positive number removes that many upcoming tracks, and
    anything else is refused. The command requires an argument, so the
    handler is only reached with one (`BotMessage.RunsOnlyWhenAllowed`). */
module CommandsRemove {
  import opened Wrappers
  import opened GoStrings
  import opened QueueSpec
  import PlayerQueue
  import Acl
  import opened Commands
  import opened CommandsPlayer
  import BotMessage

  const RemoveCommand: BaseCommand := BaseCommand(
    Acl.Music, Acl.Privileged, "remove", ["rm"], Options(true, true, false), [],
    Help([Example("remove all", "Remove all tracks in queue"),
          Example("rm -a", "Remove all tracks in queue"),
          Example("rm 10", "Remove the next 10 tracks in queue")],
         "remove", "", "Clear the queue",
         "This command can be used to remove all the tracks or a certain number of tracks in queue."))

  datatype Removal = All | Count(n: nat) | Invalid

  function Classify(arg: string): Removal
  {
    if arg == "all" || arg == "a" || arg == "-a" then All
    else
      var n := Atoi(arg);
      if n.None? || n.value < 1 then Invalid else Count(n.value)
  }

  /** A count is always a positive number that `strconv.Atoi` reads from
      the argument; every positive number written in decimal is a count of
      itself, and zero or a negative number is refused. */
  lemma ClassifySpec(arg: string, n: int)
    ensures Classify(arg).Count? ==> Classify(arg).n >= 1 && Atoi(arg) == Some(Classify(arg).n as int)
    ensures Classify(arg) == Invalid <==> arg !in {"all", "a", "-a"} && (Atoi(arg).None? || Atoi(arg).value < 1)
    ensures 1 <= n <= MaxInt ==> Classify(Itoa(n)) == Count(n)
    ensures MinInt <= n <= 0 ==> Classify(Itoa(n)) == Invalid
  {
    if MinInt <= n <= MaxInt {
      AtoiItoa(n);
      var s := Itoa(n);
      if n >= 0 {
        DigitsRoundTrip(n);
        assert IsDigit(s[0]);
        assert s != "all" && s != "a" by { assert !IsDigit('a'); }
        assert s != "-a" by { assert !IsDigit('-'); }
      } else {
        DigitsRoundTrip(-n);
        assert s[1..] == Digits(-n) && IsDigit(s[1]);
        assert s != "all" && s != "a" by { assert s[0] == '-'; }
        assert s != "-a" by { assert !IsDigit("-a"[1]); }
      }
    }
  }

  /** The remove command never runs without its argument. */
  lemma RemoveHasArgument(env: BotMessage.Env, m: BotMessage.Incoming)
    requires BotMessage.Handle(env, m).outcome.Ran?
    requires BotMessage.Handle(env, m).outcome.command == RemoveCommand
    ensures BotMessage.Handle(env, m).outcome.args != []
  {
    BotMessage.RunsOnlyWhenAllowed(env, m);
  }

  /** Handler. */
  method Handler(q: PlayerQueue.Queue, author: string, args: seq<string>) returns (r: Reply)
    requires args != []
    modifies q
    ensures match Classify(args[0])
      case All =>
        q.tracks == ClearResult(old(q.tracks), q.state.playing) &&
        r == Reply("🚮 The queue was reset by " + Mention(author), false)
      case Count(n) =>
        q.tracks == RemoveNResult(old(q.tracks), n, q.state.playing) &&
        r == Reply("🚮 The next " + Itoa(n) + " tracks in queue were removed by " + Mention(author), false)
      case Invalid =>
        q.tracks == old(q.tracks) && r == Reply("The argument is invalid", true)
  {
    if args[0] == "all" || args[0] == "a" || args[0] == "-a" {
      q.Clear();
      return Reply("🚮 The queue was reset by " + Mention(author), false);
    }
    var n := Atoi(args[0]);
    if n.None? || n.value < 1 {
      return Reply("The argument is invalid", true);
    }
    q.RemoveN(n.value);
    return Reply("🚮 The next " + Itoa(n.value) + " tracks in queue were removed by " + Mention(author), false);
  }
}
