/** The labels `acl/display.go` gives the restriction kinds. */
module AclDisplay {
  import opened Acl

  function RoleRestrictionString(r: int): string
  {
    if r == Admin then "🔐 Admin"
    else if r == Privileged then "🔒 Admin or DJ"
    else if r == Anyone then "🔓 No restriction"
    else ""
  }

  function ChannelRestrictionString(c: int): string
  {
    if c == Music then "🎶 Music text channel only"
    else if c == Anywhere then "🌍 No restriction"
    else ""
  }

  /** Each declared kind has its own non-empty label; a value outside the
      enums gets the empty label. */
  lemma LabelsDistinct(r: int, r': int, c: int, c': int)
    ensures RoleRestrictionString(r) == "" <==> !(Admin <= r <= Anyone)
    ensures ChannelRestrictionString(c) == "" <==> !(Music <= c <= Anywhere)
    ensures Admin <= r <= Anyone && Admin <= r' <= Anyone && r != r' ==>
      RoleRestrictionString(r) != RoleRestrictionString(r')
    ensures Music <= c <= Anywhere && Music <= c' <= Anywhere && c != c' ==>
      ChannelRestrictionString(c) != ChannelRestrictionString(c')
  {
    assert "🔐 Admin"[0] != "🔒 Admin or DJ"[0];
    assert "🔐 Admin"[0] != "🔓 No restriction"[0];
    assert "🔒 Admin or DJ"[0] != "🔓 No restriction"[0];
    assert "🎶 Music text channel only"[0] != "🌍 No restriction"[0];
  }
}
