/** The permission rules of `acl/acl.go`. The guild state stored for the
    guild and the Discord guild (owner and roles) are looked up by the
    source; here the results of those lookups are inputs. The restriction
    kinds are Go `iota` enums, so any other integer may reach the switch and
    is kept as an `int`. */
module Acl {
  import opened Wrappers

  /** RoleRestriction values. */
  const Admin: int := 0
  const Privileged: int := 1
  const Anyone: int := 2

  /** ChannelRestriction values. */
  const Music: int := 0
  const Anywhere: int := 1

  /** Discord's Administrator permission bit. */
  const PermissionAdministrator: bv64 := 8

  datatype Role = Role(id: string, permissions: bv64, managed: bool)

  /** The Discord guild as IsAdmin reads it. */
  datatype Guild = Guild(ownerID: string, roles: seq<Role>)

  /** The message's guild, channel, author and the author's member roles. */
  datatype Message = Message(guildID: string, channelID: string, authorID: string, memberRoles: seq<string>)

  /** The two guild-state settings the checks read. */
  datatype Settings = Settings(textChannel: string, privilegedRole: string)

  /** A role that makes its holder an administrator. */
  predicate GrantsAdmin(r: Role, memberRoles: seq<string>)
  {
    r.permissions & PermissionAdministrator != 0 && !r.managed && r.id in memberRoles
  }

  method HasRole(memberRoles: seq<string>, r: string) returns (has: bool)
    ensures has <==> r in memberRoles
  {
    for i := 0 to |memberRoles|
      invariant r !in memberRoles[..i]
    {
      if memberRoles[i] == r {
        return true;
      }
    }
    assert memberRoles[..|memberRoles|] == memberRoles;
    return false;
  }

  function AdminDecision(guild: Result<Guild, string>, m: Message): Result<bool, string>
  {
    match guild
    case Err(e) => Err("get guild: " + e)
    case Ok(g) => Ok(m.authorID == g.ownerID || exists k | 0 <= k < |g.roles| :: GrantsAdmin(g.roles[k], m.memberRoles))
  }

  /** IsAdmin: the guild owner, or a member holding an unmanaged role with
      the Administrator bit. */
  method IsAdmin(guild: Result<Guild, string>, m: Message) returns (res: Result<bool, string>)
    ensures res == AdminDecision(guild, m)
  {
    if guild.Err? {
      return Err("get guild: " + guild.error);
    }
    var g := guild.value;
    if m.authorID == g.ownerID {
      return Ok(true);
    }
    for i := 0 to |g.roles|
      invariant forall k | 0 <= k < i :: !GrantsAdmin(g.roles[k], m.memberRoles)
    {
      var r := g.roles[i];
      if r.permissions & PermissionAdministrator != 0 && !r.managed {
        var has := HasRole(m.memberRoles, r.id);
        if has {
          return Ok(true);
        }
      }
    }
    return Ok(false);
  }

  function PrivilegedDecision(guild: Result<Guild, string>, m: Message, gs: Settings): Result<bool, string>
  {
    match AdminDecision(guild, m)
    case Err(e) => Err("check admin: " + e)
    case Ok(adm) => Ok(adm || (gs.privilegedRole != "" && gs.privilegedRole in m.memberRoles))
  }

  /** IsPrivileged: an administrator, or a holder of the configured DJ role. */
  method IsPrivileged(guild: Result<Guild, string>, m: Message, gs: Settings) returns (res: Result<bool, string>)
    ensures res == PrivilegedDecision(guild, m, gs)
  {
    var adm := IsAdmin(guild, m);
    if adm.Err? {
      return Err("check admin: " + adm.error);
    }
    if adm.value {
      return Ok(true);
    }
    if gs.privilegedRole != "" {
      var has := HasRole(m.memberRoles, gs.privilegedRole);
      return Ok(has);
    }
    return Ok(false);
  }

  function CheckDecision(state: Result<Settings, string>, guild: Result<Guild, string>, m: Message, r: int, c: int): Result<bool, string>
  {
    match state
    case Err(e) => Err("get guild state: " + e)
    case Ok(gs) =>
      if r == Admin then AdminDecision(guild, m)
      else if r == Privileged then
        (if gs.privilegedRole == "" then AdminDecision(guild, m) else PrivilegedDecision(guild, m, gs))
      else if c == Music then Ok(gs.textChannel == "" || m.channelID == gs.textChannel)
      else Ok(true)
  }

  /** Check: the role restriction decides alone for Admin and Privileged;
      for any other role value the channel restriction decides. */
  method Check(state: Result<Settings, string>, guild: Result<Guild, string>, m: Message, r: int, c: int)
    returns (res: Result<bool, string>)
    ensures res == CheckDecision(state, guild, m, r, c)
  {
    if state.Err? {
      return Err("get guild state: " + state.error);
    }
    var gs := state.value;
    if r == Admin {
      res := IsAdmin(guild, m);
      return;
    } else if r == Privileged {
      if gs.privilegedRole == "" {
        res := IsAdmin(guild, m);
      } else {
        res := IsPrivileged(guild, m, gs);
      }
      return;
    }
    if c == Music {
      if gs.textChannel == "" {
        return Ok(true);
      }
      return Ok(m.channelID == gs.textChannel);
    }
    return Ok(true);
  }

  /** The guild state is read first: when it cannot be fetched, every check
      fails with that error, whatever the restrictions. */
  lemma StateErrorFirst(e: string, guild: Result<Guild, string>, m: Message, r: int, c: int)
    ensures CheckDecision(Err(e), guild, m, r, c) == Err("get guild state: " + e)
  {
  }

  /** Admin and Privileged never look at the channel restriction or at the
      channel the message came from. */
  lemma RoleRestrictionIgnoresChannel(state: Result<Settings, string>, guild: Result<Guild, string>, m: Message, r: int, c: int, c': int, ch: string)
    requires r == Admin || r == Privileged
    ensures CheckDecision(state, guild, m, r, c) == CheckDecision(state, guild, m.(channelID := ch), r, c')
  {
  }

  /** Without a DJ role, Privileged means Admin. */
  lemma NoDJRoleMeansAdmin(gs: Settings, guild: Result<Guild, string>, m: Message, c: int)
    requires gs.privilegedRole == ""
    ensures CheckDecision(Ok(gs), guild, m, Privileged, c) == CheckDecision(Ok(gs), guild, m, Admin, c)
  {
  }

  /** Whoever passes the Admin check passes the Privileged one, and whoever
      passes Privileged passes Anyone in any channel when no music channel is
      set. */
  lemma RestrictionsNest(gs: Settings, guild: Result<Guild, string>, m: Message, c: int)
    ensures CheckDecision(Ok(gs), guild, m, Admin, c) == Ok(true) ==>
      CheckDecision(Ok(gs), guild, m, Privileged, c) == Ok(true)
    ensures gs.textChannel == "" ==> CheckDecision(Ok(gs), guild, m, Anyone, c) == Ok(true)
  {
  }

  /** Anyone: Music allows only the configured text channel (any channel
      when none is configured), Anywhere allows every channel; no Discord
      lookup is made, so a guild lookup error does not matter. */
  lemma AnyoneDecidedByChannel(gs: Settings, guild: Result<Guild, string>, m: Message)
    ensures CheckDecision(Ok(gs), guild, m, Anyone, Music) == Ok(gs.textChannel == "" || m.channelID == gs.textChannel)
    ensures CheckDecision(Ok(gs), guild, m, Anyone, Anywhere) == Ok(true)
  {
  }

  /** The guild owner is an administrator whatever their roles; a member
      holding no role is one only when they own the guild. */
  lemma OwnerIsAdmin(g: Guild, m: Message)
    ensures m.authorID == g.ownerID ==> AdminDecision(Ok(g), m) == Ok(true)
    ensures m.memberRoles == [] ==> AdminDecision(Ok(g), m) == Ok(m.authorID == g.ownerID)
  {
  }
}
