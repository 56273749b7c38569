/** The setup command of `commands/setup.go`: `voice=<name>` or
    `text=<name>` records the bot's voice or text channel in the guild's
    stored state. The stored state (null when it cannot be read) and the
    guild's channel list are inputs; saving is reported as a flag. */
module CommandsSetup {
  import opened Wrappers
  import opened GoStrings
  import opened GuildState
  import Acl
  import opened Commands

  const SetupCommand: BaseCommand := BaseCommand(
    Acl.Anywhere, Acl.Admin, "setup", [], Options(false, true, false), [],
    Help([Example("setup voice=\"My Vocal Channel\"", "Setup the vocal channel of the bot"),
          Example("setup text=\"fox-radio\"", "Setup the text channel of the bot"),
          Example("setup djrole=\"DJ\"", "Setup the privileged DJ role")],
         "setup", "", "Setup the bot", "This commands allows to setup the various bits of the bot."))

  const Quote: set<char> := {'"'}

  /** The parameter and the unquoted value of `param=value`; nothing when
      there is no argument or the argument does not split into exactly two
      parts on `=`. */
  function ParseSetup(args: seq<string>): Option<(string, string)>
  {
    if args == [] then None
    else
      var parts := Split(args[0], '=');
      if |parts| != 2 then None else Some((parts[0], Trim(parts[1], Quote)))
  }

  /** An argument is accepted exactly when it holds one `=`; it is then the
      parameter, the `=` and the raw value, the value being the raw value
      with every leading and trailing double quote removed. */
  lemma ParseSetupSpec(arg: string)
    ensures ParseSetup([arg]).Some? <==> multiset(arg)['='] == 1
    ensures ParseSetup([arg]).Some? ==>
      exists raw :: '=' !in raw && '=' !in ParseSetup([arg]).value.0 &&
        arg == ParseSetup([arg]).value.0 + "=" + raw && ParseSetup([arg]).value.1 == Trim(raw, Quote)
  {
    SplitCount(arg, '=');
    var parts := Split(arg, '=');
    if |parts| == 2 {
      SplitJoin(arg, '=');
      SplitParts(arg, '=');
      assert Join(parts, '=') == parts[0] + ['='] + Join(parts[1..], '=');
      assert arg == parts[0] + "=" + parts[1];
    }
  }

  /** One `=` between two parts without one: the parameter is the first
      part and the value the second, unquoted. */
  lemma ParseOneSep(param: string, raw: string)
    requires '=' !in param && '=' !in raw
    ensures ParseSetup([param + "=" + raw]) == Some((param, Trim(raw, Quote)))
  {
    SplitAtOnlySep(param, raw, '=');
  }

  /** Quotes around a value without quotes inside are removed. */
  lemma Unquote(v: string)
    requires |v| > 0 && v[0] != '"' && v[|v| - 1] != '"'
    ensures Trim("\"" + v + "\"", Quote) == v
  {
    var raw := "\"" + v + "\"";
    assert raw[1..] == v + "\"";
    assert TrimLeft(raw, Quote) == raw[1..];
    assert TrimLeft(raw[1..], Quote) == raw[1..];
    assert raw[1..][..|raw[1..]| - 1] == v;
    assert TrimRight(v, Quote) == v;
  }

  /** A value with a second `=` and a bare parameter are both refused. */
  lemma RefusedArguments()
    ensures ParseSetup(["a=b=c"]) == None
    ensures ParseSetup(["voice"]) == None
  {
    SplitCount("a=b=c", '=');
    assert multiset("a=b=c")['='] == 2 by {
      assert "a=b=c" == ['a'] + ['='] + ['b'] + ['='] + ['c'];
    }
    SplitNoSep("voice", '=');
  }

  /** What SetChannel answers, as a function of its inputs. */
  function SetChannelOutcome(id: string, chans: Result<seq<Channel>, string>, value: string, voice: bool): Option<SetChannelError>
  {
    if id == "" then Some(EmptyID)
    else if chans.Err? then Some(FetchFailed(chans.error))
    else if LastMatch(chans.value, value, voice).None? then Some(ChannelNotFound)
    else None
  }

  /** The short notice after a voice or text setup: a confirmation (naming
      the new text channel), a not-found message, or nothing for any other
      error. */
  function SetupNotice(voice: bool, err: Option<SetChannelError>, textChannel: string): Option<string>
  {
    if err == Some(ChannelNotFound) then
      Some(if voice then "I couldn't find any vocal channel named like this" else "I couldn't find any text channel named like this")
    else if err.Some? then None
    else if voice then Some("Alright, I'll stream the music to this channel from now on")
    else Some("Noted, the music channel is now <#" + textChannel + ">")
  }

  const UnknownParameter: string := "Unknwon parameter"

  /** Handler. The state is saved after a voice or text setup whether or
      not the channel was found, and only then. */
  method Handler(gstate: State?, args: seq<string>, chans: Result<seq<Channel>, string>)
    returns (notice: Option<string>, saved: bool)
    modifies gstate
    ensures gstate == null || ParseSetup(args).None? ==> notice == None && !saved
    ensures gstate != null && ParseSetup(args).Some? ==>
      var (param, value) := ParseSetup(args).value;
      var voice := param == "voice";
      if param != "voice" && param != "text" then
        notice == Some(UnknownParameter) && !saved &&
        gstate.voiceChannel == old(gstate.voiceChannel) && gstate.textChannel == old(gstate.textChannel)
      else
        var err := SetChannelOutcome(gstate.id, chans, value, voice);
        var found := if chans.Ok? then LastMatch(chans.value, value, voice) else None;
        saved && notice == SetupNotice(voice, err, gstate.textChannel) &&
        gstate.voiceChannel == (if voice && err.None? then found.value else old(gstate.voiceChannel)) &&
        gstate.textChannel == (if !voice && err.None? then found.value else old(gstate.textChannel))
    ensures gstate != null ==>
      gstate.id == old(gstate.id) && gstate.queueHistory == old(gstate.queueHistory) &&
      gstate.privilegedRole == old(gstate.privilegedRole)
    ensures gstate != null && ParseSetup(args).None? ==>
      gstate.voiceChannel == old(gstate.voiceChannel) && gstate.textChannel == old(gstate.textChannel)
  {
    if gstate == null {
      return None, false;
    }
    if |args| < 1 {
      return None, false;
    }
    var setup := Split(args[0], '=');
    if |setup| != 2 {
      return None, false;
    }
    var param, value := setup[0], Trim(setup[1], Quote);
    if param == "voice" || param == "text" {
      var voice := param == "voice";
      var err := gstate.SetChannel(chans, value, voice);
      return SetupNotice(voice, err, gstate.textChannel), true;
    }
    return Some(UnknownParameter), false;
  }
}
