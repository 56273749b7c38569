/** The SoundCloud URL check that `bot/router.go`, `bot/handlers_public.go`
    and `commands/add.go` each repeat: strip the angle brackets Discord puts
    around a link to suppress its preview, then require the SoundCloud
    prefix. */
module SoundCloudURL {
  import opened Wrappers
  import opened GoStrings

  const Prefix: string := "https://soundcloud.com"
  const AngleBrackets: set<char> := {'<', '>'}

  function Check(arg: string): Option<string>
  {
    var url := Trim(arg, AngleBrackets);
    if HasPrefix(url, Prefix) then Some(url) else None
  }

  /** An accepted URL starts with the prefix and is the argument without its
      surrounding brackets; it is accepted again, unchanged, when checked a
      second time. A rejected argument is rejected however often its
      brackets are stripped. */
  lemma CheckSpec(arg: string)
    ensures Check(arg).Some? <==> HasPrefix(Trim(arg, AngleBrackets), Prefix)
    ensures Check(arg).Some? ==>
      var url := Check(arg).value;
      HasPrefix(url, Prefix) && url[|url| - 1] !in AngleBrackets && Check(url) == Some(url)
    ensures Check(Trim(arg, AngleBrackets)) == Check(arg)
  {
    TrimIdempotent(arg, AngleBrackets);
    TrimSpec(arg, AngleBrackets);
  }

  /** A link wrapped in brackets is accepted as the bare link. */
  lemma WrappedLinkAccepted(path: string)
    requires path == [] || path[|path| - 1] !in AngleBrackets
    ensures Check("<" + Prefix + path + ">") == Some(Prefix + path)
  {
    var s := "<" + Prefix + path + ">";
    assert s[1..] == Prefix + path + ">";
    assert TrimLeft(s, AngleBrackets) == TrimLeft(s[1..], AngleBrackets);
    assert TrimLeft(s[1..], AngleBrackets) == s[1..];
    var t := s[1..];
    assert t[..|t| - 1] == Prefix + path;
    assert TrimRight(Prefix + path, AngleBrackets) == Prefix + path;
    assert (Prefix + path)[..|Prefix|] == Prefix;
  }
}
