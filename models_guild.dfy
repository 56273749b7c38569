/** The guild configuration of `models/guild.go`, the later twin of the
    guild state. Its SetChannel loop compares the configuration's own guild
    ID with the value where the guild state compares the channel's ID. The
    condition as written is kept in `MatchesAsWritten` and
    `LastMatchAsWritten`; `Conf.SetChannel` uses the channel's ID, as the
    guild state does. */
module GuildConf {
  import opened Wrappers
  import opened GuildState

  /** The loop's condition as written: `c.ID` is the guild's ID. */
  predicate MatchesAsWritten(ch: Channel, confID: string, value: string, voice: bool)
  {
    (ch.name == value || confID == value) && ch.kind == WantedKind(voice)
  }

  function LastMatchAsWritten(chans: seq<Channel>, confID: string, value: string, voice: bool): Option<string>
  {
    if chans == [] then None
    else if MatchesAsWritten(chans[|chans| - 1], confID, value, voice) then Some(chans[|chans| - 1].id)
    else LastMatchAsWritten(chans[..|chans| - 1], confID, value, voice)
  }

  /** As written, giving the guild's own ID selects the last channel of the
      requested kind, whatever its name or ID. */
  lemma {:induction false} GuildIDSelectsLastOfKind(chans: seq<Channel>, confID: string, voice: bool)
    ensures forall k | 0 <= k < |chans| :: MatchesAsWritten(chans[k], confID, confID, voice) <==> chans[k].kind == WantedKind(voice)
    ensures chans != [] && chans[|chans| - 1].kind == WantedKind(voice) ==>
      LastMatchAsWritten(chans, confID, confID, voice) == Some(chans[|chans| - 1].id)
  {
  }

  /** A guild with text channels "general" (ID "c1") and "music" (ID "c2"):
      as written, the guild ID "g" selects "c2", which the value names in no
      way, and the channel ID "c1" is not found; matching on the channel's ID
      finds "c1" and nothing for "g". */
  lemma ChannelIDSlip()
    ensures var chans := [Channel("c1", "general", ChannelTypeGuildText), Channel("c2", "music", ChannelTypeGuildText)];
      LastMatchAsWritten(chans, "g", "g", false) == Some("c2") &&
      LastMatch(chans, "g", false) == None &&
      LastMatchAsWritten(chans, "g", "c1", false) == None &&
      LastMatch(chans, "c1", false) == Some("c1")
  {
    var chans := [Channel("c1", "general", ChannelTypeGuildText), Channel("c2", "music", ChannelTypeGuildText)];
    assert chans[..1] == [chans[0]];
    assert chans[..1][..0] == [];
    assert |"general"| != |"g"| && "music"[0] != "g"[0] && "c2"[0] != "g"[0] && "c1"[0] != "g"[0];
    assert |"general"| != |"c1"| && "music"[0] != "c1"[0] && "c2"[1] != "c1"[1];
    assert !Matches(chans[1], "g", false) && !Matches(chans[0], "g", false);
    assert !MatchesAsWritten(chans[1], "g", "c1", false) && !MatchesAsWritten(chans[0], "g", "c1", false);
    assert LastMatch(chans[..1], "g", false) == LastMatch([], "g", false) == None;
    assert LastMatchAsWritten(chans[..1], "g", "c1", false) == LastMatchAsWritten([], "g", "c1", false) == None;
  }

  /** The two conditions agree whenever the value is neither the guild ID nor
      any channel's ID, that is when channels are chosen by name. */
  lemma {:induction false} AgreeOnNames(chans: seq<Channel>, confID: string, value: string, voice: bool)
    requires value != confID
    requires forall k | 0 <= k < |chans| :: chans[k].id != value
    ensures LastMatchAsWritten(chans, confID, value, voice) == LastMatch(chans, value, voice)
  {
    if chans != [] {
      AgreeOnNames(chans[..|chans| - 1], confID, value, voice);
    }
  }

  class Conf {
    var id: string
    var voiceChannel: string
    var textChannel: string
    var queueHistory: int
    var privilegedRole: string

    /** NewConf: only the guild ID is set. */
    constructor (id: string)
      ensures this.id == id && voiceChannel == "" && textChannel == "" && queueHistory == 0 && privilegedRole == ""
    {
      this.id := id;
      voiceChannel, textChannel, queueHistory, privilegedRole := "", "", 0, "";
    }

    /** Records the last channel of the requested kind whose name or ID is
      the value. */
    method SetChannel(chans: Result<seq<Channel>, string>, value: string, voice: bool) returns (err: Option<SetChannelError>)
      modifies this
      ensures id == "" ==> err == Some(EmptyID)
      ensures id != "" && chans.Err? ==> err == Some(FetchFailed(chans.error))
      ensures id != "" && chans.Ok? ==>
        var found := LastMatch(chans.value, value, voice);
        err == (if found.None? then Some(ChannelNotFound) else None) &&
        voiceChannel == (if voice && found.Some? then found.value else old(voiceChannel)) &&
        textChannel == (if !voice && found.Some? then found.value else old(textChannel))
      ensures err.Some? ==> voiceChannel == old(voiceChannel) && textChannel == old(textChannel)
      ensures id == old(id) && queueHistory == old(queueHistory) && privilegedRole == old(privilegedRole)
    {
      if id == "" {
        return Some(EmptyID);
      }
      if chans.Err? {
        return Some(FetchFailed(chans.error));
      }
      var cs := chans.value;
      var dtype := if voice then ChannelTypeGuildVoice else ChannelTypeGuildText;
      var found := false;
      for i := 0 to |cs|
        invariant found == LastMatch(cs[..i], value, voice).Some?
        invariant voiceChannel == (if voice && found then LastMatch(cs[..i], value, voice).value else old(voiceChannel))
        invariant textChannel == (if !voice && found then LastMatch(cs[..i], value, voice).value else old(textChannel))
        invariant id == old(id) && queueHistory == old(queueHistory) && privilegedRole == old(privilegedRole)
      {
        var ch := cs[i];
        assert cs[..i + 1][..i] == cs[..i];
        if (ch.name == value || ch.id == value) && ch.kind == dtype {
          if voice {
            voiceChannel := ch.id;
          } else {
            textChannel := ch.id;
          }
          found := true;
        }
      }
      assert cs[..|cs|] == cs;
      if !found {
        return Some(ChannelNotFound);
      }
      return None;
    }
  }
}
