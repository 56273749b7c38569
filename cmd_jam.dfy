/** The jam command of `commands/jam.go`: a mention line and a dancing-cat
    gif in one of three sizes. */
module CommandsJam {
  import Acl
  import opened Commands
  import opened CommandsPlayer

  const JamCommand: BaseCommand := BaseCommand(
    Acl.Anywhere, Acl.Anyone, "jam", [], Options(false, true, false), [],
    Help([Example("jam", "Normal jam"), Example("jam large", "Large jam"), Example("jam small", "Small jam"),
          Example("jam l", "Large jam"), Example("jam s", "Small jam")],
         "jam", "", "CAT. JAM.", "CAT. JAM."))

  const GifPrefix: string := "https://cdn.betterttv.net/emote/5f1b0186cf6d2144653d2970/"

  function Size(args: seq<string>): string
  {
    if args == [] then "1x"
    else match args[0]
      case "small" => "1x"
      case "s" => "1x"
      case "medium" => "2x"
      case "m" => "2x"
      case "large" => "3x"
      case "l" => "3x"
      case _ => "1x"
  }

  /** The two messages sent, in order. */
  function Messages(author: string, args: seq<string>): seq<string>
  {
    [Mention(author) + " is jamming!", GifPrefix + Size(args) + ".gif"]
  }

  /** The size is one of the three, the normal one unless a medium or large
      name is given, and the gif link is the fixed prefix, the size and
      `.gif`. */
  lemma SizeSpec(author: string, args: seq<string>)
    ensures Size(args) in {"1x", "2x", "3x"}
    ensures Size(args) == "2x" <==> args != [] && args[0] in {"medium", "m"}
    ensures Size(args) == "3x" <==> args != [] && args[0] in {"large", "l"}
    ensures |Messages(author, args)| == 2
    ensures var gif := Messages(author, args)[1];
      gif[..|GifPrefix|] == GifPrefix && gif[|GifPrefix|..] == Size(args) + ".gif"
  {
    var gif := GifPrefix + Size(args) + ".gif";
    assert gif[..|GifPrefix|] == GifPrefix;
    assert gif[|GifPrefix|..] == Size(args) + ".gif";
  }
}
