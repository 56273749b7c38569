/** The stored guild state of `guild/guild.go` and its channel selection:
    SetChannel scans the guild's channels for one named or identified by the
    value, of the requested kind, and records the last such channel. The
    channel list fetched from Discord is an input. */
module GuildState {
  import opened Wrappers

  /** Discord's channel type codes for guild text and voice channels. */
  const ChannelTypeGuildText: int := 0
  const ChannelTypeGuildVoice: int := 2

  datatype Channel = Channel(id: string, name: string, kind: int)

  datatype SetChannelError = EmptyID | FetchFailed(cause: string) | ChannelNotFound

  function WantedKind(voice: bool): int
  {
    if voice then ChannelTypeGuildVoice else ChannelTypeGuildText
  }

  predicate Matches(ch: Channel, value: string, voice: bool)
  {
    (ch.name == value || ch.id == value) && ch.kind == WantedKind(voice)
  }

  /** The ID of the last channel in list order that matches. */
  function LastMatch(chans: seq<Channel>, value: string, voice: bool): Option<string>
  {
    if chans == [] then None
    else if Matches(chans[|chans| - 1], value, voice) then Some(chans[|chans| - 1].id)
    else LastMatch(chans[..|chans| - 1], value, voice)
  }

  /** LastMatch finds a channel exactly when one matches, and the one it
      finds matches and has no matching channel after it. */
  lemma {:induction false} LastMatchSpec(chans: seq<Channel>, value: string, voice: bool)
    ensures LastMatch(chans, value, voice).None? <==>
      forall k | 0 <= k < |chans| :: !Matches(chans[k], value, voice)
    ensures LastMatch(chans, value, voice).Some? ==>
      exists k | 0 <= k < |chans| ::
        Matches(chans[k], value, voice) && chans[k].id == LastMatch(chans, value, voice).value &&
        forall j | k < j < |chans| :: !Matches(chans[j], value, voice)
  {
    if chans != [] {
      var n := |chans| - 1;
      var init := chans[..n];
      LastMatchSpec(init, value, voice);
      if !Matches(chans[n], value, voice) {
        if LastMatch(init, value, voice).Some? {
          var k :| 0 <= k < |init| && Matches(init[k], value, voice) && init[k].id == LastMatch(init, value, voice).value &&
                   forall j | k < j < |init| :: !Matches(init[j], value, voice);
          assert chans[k] == init[k];
        } else {
          assert forall k | 0 <= k < n :: chans[k] == init[k];
        }
      }
    }
  }

  class State {
    var id: string
    var voiceChannel: string
    var textChannel: string
    var queueHistory: int
    var privilegedRole: string

    /** NewState: only the guild ID is set. */
    constructor (id: string)
      ensures this.id == id && voiceChannel == "" && textChannel == "" && queueHistory == 0 && privilegedRole == ""
    {
      this.id := id;
      voiceChannel, textChannel, queueHistory, privilegedRole := "", "", 0, "";
    }

    /** Records the last matching channel's ID as the voice channel (`voice`)
      or the text channel, and nothing else. */
    method SetChannel(chans: Result<seq<Channel>, string>, value: string, voice: bool) returns (err: Option<SetChannelError>)
      modifies this
      ensures id == "" ==> err == Some(EmptyID)
      ensures id != "" && chans.Err? ==> err == Some(FetchFailed(chans.error))
      ensures id != "" && chans.Ok? ==>
        var found := LastMatch(chans.value, value, voice);
        err == (if found.None? then Some(ChannelNotFound) else None) &&
        voiceChannel == (if voice && found.Some? then found.value else old(voiceChannel)) &&
        textChannel == (if !voice && found.Some? then found.value else old(textChannel))
      ensures err.Some? ==> voiceChannel == old(voiceChannel) && textChannel == old(textChannel)
      ensures id == old(id) && queueHistory == old(queueHistory) && privilegedRole == old(privilegedRole)
    {
      if id == "" {
        return Some(EmptyID);
      }
      if chans.Err? {
        return Some(FetchFailed(chans.error));
      }
      var cs := chans.value;
      var dtype := if voice then ChannelTypeGuildVoice else ChannelTypeGuildText;
      var found := false;
      for i := 0 to |cs|
        invariant found == LastMatch(cs[..i], value, voice).Some?
        invariant voiceChannel == (if voice && found then LastMatch(cs[..i], value, voice).value else old(voiceChannel))
        invariant textChannel == (if !voice && found then LastMatch(cs[..i], value, voice).value else old(textChannel))
        invariant id == old(id) && queueHistory == old(queueHistory) && privilegedRole == old(privilegedRole)
      {
        var c := cs[i];
        assert cs[..i + 1][..i] == cs[..i];
        if (c.name == value || c.id == value) && c.kind == dtype {
          if voice {
            voiceChannel := c.id;
          } else {
            textChannel := c.id;
          }
          found := true;
        }
      }
      assert cs[..|cs|] == cs;
      if !found {
        return Some(ChannelNotFound);
      }
      return None;
    }
  }
}
