/** The volume command of `commands/volume.go`: without an argument it shows
    the current volume as a percentage; with one it parses a percentage
    (or `reset`), checks it lies in 0–200 and hands it to the player. */
module CommandsVolume {
  import opened Wrappers
  import opened GoStrings
  import opened PlayerControl
  import PlayerDisplay
  import PlayerState
  import Acl
  import opened Commands
  import opened CommandsPlayer

  const VolumeCommand: BaseCommand := BaseCommand(
    Acl.Music, Acl.Privileged, "volume", ["vol"], Options(false, true, false), [],
    Help([Example("volume", "Display the current volume"),
          Example("volume reset", "Resets the volume to 100%"),
          Example("volume 200%", "Sets the volume to the maximum possible"),
          Example("vol 50%", "Sets the volume to half the normal volume using the alias")],
         "volume", "", "Set or see the volume of the player",
         "This command will set the volume for the following tracks or display the current volume if no argument is provided. The volume change will be applied to the next tracks and not to the currently playing one."))

  /** What the arguments ask for. */
  datatype Request = Show | SetTo(percent: int) | NotANumber | OutOfRange(percent: int)

  function ParseVolume(args: seq<string>): (r: Request)
  {
    if args == [] then Show
    else
      var v := if args[0] == "reset" then Some(100) else Atoi(Trim(args[0], {'%'}));
      if v.None? then NotANumber
      else if v.value > 200 || v.value < 0 then OutOfRange(v.value)
      else SetTo(v.value)
  }

  /** Loud above 100 %, quiet below, the middle speaker at exactly 100 %. */
  function Emoji(v: int): string
  {
    if v > 100 then "🔊" else if v < 100 then "🔈" else "🔉"
  }

  /** The raw volume as a percentage, with Go's truncating division. */
  function Displayed(volume: int): int
  {
    PlayerDisplay.Quo(volume * 100, 256)
  }

  const InvalidLevel: Reply := Reply("Invalid volume level", true)
  const LevelOutOfRange: Reply := Reply("Invalid volume level (1% → 200%)", true)

  function ShowText(volume: int): string
  {
    Emoji(Displayed(volume)) + " Volume is currently " + Itoa(Displayed(volume)) + "% "
  }

  function SetText(v: int, author: string): string
  {
    Emoji(v) + " Volume set to " + Itoa(v) + "% by " + Mention(author)
  }

  /** A request to set the volume is always within the player's accepted
      percentages, so SetVolumePercent never fails from this command; the
      numbers outside 0–200 are refused before it, and `reset` is 100 %. */
  lemma ParseVolumeSpec(args: seq<string>)
    ensures ParseVolume(args).SetTo? ==> ValidPercent(ParseVolume(args).percent)
    ensures ParseVolume(args).OutOfRange? ==> !ValidPercent(ParseVolume(args).percent)
    ensures ParseVolume(args) == Show <==> args == []
    ensures args != [] && args[0] == "reset" ==> ParseVolume(args) == SetTo(100)
    ensures args != [] && args[0] != "reset" ==>
      (ParseVolume(args) == NotANumber <==> Atoi(Trim(args[0], {'%'})).None?)
  {
  }

  /** Trimming `%` from a number followed by a percent sign leaves the
      number. */
  lemma TrimPercent(d: string)
    requires |d| > 0 && d[0] != '%' && d[|d| - 1] != '%'
    ensures Trim(d + "%", {'%'}) == d
  {
    var s := d + "%";
    assert TrimLeft(s, {'%'}) == s;
    assert s[..|s| - 1] == d;
    assert TrimRight(d, {'%'}) == d;
  }

  /** Every accepted percentage, written as the examples write it (`50%`)
      or bare, parses back to itself. */
  lemma PercentRoundTrip(v: int)
    requires ValidPercent(v)
    ensures ParseVolume([Itoa(v) + "%"]) == SetTo(v)
    ensures ParseVolume([Itoa(v)]) == SetTo(v)
  {
    DigitsRoundTrip(v);
    var d := Itoa(v);
    assert IsDigit(d[0]) && IsDigit(d[|d| - 1]);
    TrimPercent(d);
    assert d != "reset" by { assert !IsDigit("reset"[0]); }
    assert d + "%" != "reset" by { assert !IsDigit("reset"[0]); assert (d + "%")[0] == d[0]; }
    assert TrimLeft(d, {'%'}) == d;
    assert TrimRight(d, {'%'}) == d;
    AtoiItoa(v);
  }

  /** Reading back a percentage that was just set shows it or one less: the
      conversion to raw gain and back truncates twice. It is exact for
      multiples of 25 and for 100 in particular, and 30 % reads back as 29 %. */
  lemma VolumeReadBack(v: int)
    requires ValidPercent(v)
    ensures Displayed(PercentToRaw(v)) == v || Displayed(PercentToRaw(v)) == v - 1
    ensures v % 25 == 0 ==> Displayed(PercentToRaw(v)) == v
    ensures Displayed(PercentToRaw(30)) == 29 && Displayed(PlayerState.DefaultVolume) == 100
  {
    var raw := 256 * v / 100;
    assert 100 * raw <= 256 * v < 100 * raw + 100;
    assert raw * 100 / 256 * 256 <= raw * 100;
  }

  /** Handler: shows the volume, or refuses the argument, or sets the
      volume and says to what. */
  method Handler(p: Player, author: string, args: seq<string>) returns (r: Reply)
    modifies p.state
    ensures var req := ParseVolume(args);
      match req
      case Show => p.Snapshot() == old(p.Snapshot()) && r == Reply(ShowText(old(p.state.volume)), true)
      case NotANumber => p.Snapshot() == old(p.Snapshot()) && r == InvalidLevel
      case OutOfRange(_) => p.Snapshot() == old(p.Snapshot()) && r == LevelOutOfRange
      case SetTo(v) => p.Snapshot() == old(p.Snapshot()).(volume := PercentToRaw(v)) && r == Reply(SetText(v, author), false)
  {
    ParseVolumeSpec(args);
    if |args| < 1 {
      var v := Displayed(p.state.volume);
      return Reply(Emoji(v) + " Volume is currently " + Itoa(v) + "% ", true);
    }
    var v: int;
    if args[0] == "reset" {
      v := 100;
    } else {
      var parsed := Atoi(Trim(args[0], {'%'}));
      if parsed.None? {
        return InvalidLevel;
      }
      v := parsed.value;
    }
    if v > 200 || v < 0 {
      return LevelOutOfRange;
    }
    var err := p.SetVolumePercent(v);
    if err.Some? {
      assert false;
      return Reply("", false);
    }
    return Reply(Emoji(v) + " Volume set to " + Itoa(v) + "% by " + Mention(author), false);
  }
}
