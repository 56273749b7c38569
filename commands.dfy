/** The command description shared by every command of `commands/`
    (`commands/command.go`): options, subcommands, help text, restrictions,
    and the help card a command sends to the author in private. */
module Commands {
  import opened Wrappers
  import opened Tracks
  import AclDisplay

  datatype Options = Options(argsRequired: bool, deleteUserMessage: bool, dmCapability: bool)

  datatype SubCommand = SubCommand(long: string, aliases: seq<string>, arg: string, description: string)

  datatype Example = Example(command: string, explanation: string)

  datatype Help = Help(examples: seq<Example>, usage: string, title: string, shortDesc: string, description: string)

  /** BaseCommand without its player and logger. Restrictions are the
      `acl` enums. */
  datatype BaseCommand = BaseCommand(
    channelRestriction: int, roleRestriction: int,
    long: string, aliases: seq<string>,
    options: Options, subCommands: seq<SubCommand>, help: Help)

  function ACL(c: BaseCommand): (int, int) { (c.channelRestriction, c.roleRestriction) }
  function Calls(c: BaseCommand): (string, seq<string>) { (c.long, c.aliases) }
  function Opts(c: BaseCommand): Options { c.options }
  function GetHelp(c: BaseCommand): Help { c.help }

  /** The accessors hand back the stored fields, channel restriction first. */
  lemma AccessorsReturnFields(c: BaseCommand)
    ensures ACL(c).0 == c.channelRestriction && ACL(c).1 == c.roleRestriction
    ensures Calls(c) == (c.long, c.aliases) && Opts(c) == c.options && GetHelp(c) == c.help
  {
  }

  /** `/a/b/c` for aliases a, b, c. */
  function SlashAliases(aliases: seq<string>): string
  {
    if aliases == [] then "" else SlashAliases(aliases[..|aliases| - 1]) + "/" + aliases[|aliases| - 1]
  }

  /** ``/`a`/`b` `` for aliases a, b. */
  function TitleAliases(aliases: seq<string>): string
  {
    if aliases == [] then "" else TitleAliases(aliases[..|aliases| - 1]) + "/`" + aliases[|aliases| - 1] + "`"
  }

  function SubCommandEntry(sc: SubCommand): string
  {
    "\n\n`" + sc.long + SlashAliases(sc.aliases) + (if sc.arg != "" then " <" + sc.arg + ">" else "") + "`" +
    (if sc.description != "" then "\n" + sc.description else "")
  }

  function SubCommandEntries(scs: seq<SubCommand>): string
  {
    if scs == [] then "" else SubCommandEntries(scs[..|scs| - 1]) + SubCommandEntry(scs[|scs| - 1])
  }

  function SubCommandsSection(scs: seq<SubCommand>): string
  {
    if scs == [] then "" else "\n\n__**Subcommands**__" + SubCommandEntries(scs)
  }

  /** Ten no-break spaces between the two restriction labels. */
  const Gap: string := "\U{00A0}\U{00A0}\U{00A0}\U{00A0}\U{00A0}\U{00A0}\U{00A0}\U{00A0}\U{00A0}\U{00A0}"

  function RestrictionsSection(c: BaseCommand): string
  {
    "\n\n__**Restrictions**__\n\n" +
    "**" + AclDisplay.ChannelRestrictionString(c.channelRestriction) + Gap +
    AclDisplay.RoleRestrictionString(c.roleRestriction) + "**"
  }

  function ExamplesSection(c: BaseCommand): string
  {
    if c.help.examples == [] then "" else "\n\n__**Examples**__"
  }

  function ExampleField(prefix: string, e: Example): Field
  {
    Field("`" + prefix + " " + e.command + "`", Text(e.explanation), false)
  }

  function ExampleFields(prefix: string, es: seq<Example>): seq<Field>
  {
    if es == [] then [] else ExampleFields(prefix, es[..|es| - 1]) + [ExampleField(prefix, es[|es| - 1])]
  }

  /** The title as the source spells it, its emoji mis-encoded. */
  function HelpTitle(c: BaseCommand): string
  {
    "â“ Help for `" + c.long + "`" + TitleAliases(c.aliases) + " command"
  }

  /** The help card DisplayHelp builds. */
  function HelpCard(c: BaseCommand, prefix: string): Embed
  {
    Embed(HelpTitle(c), "", "",
          c.help.description + SubCommandsSection(c.subCommands) + RestrictionsSection(c) + ExamplesSection(c),
          ExampleFields(prefix, c.help.examples), None)
  }

  lemma {:induction false} ExampleFieldsSpec(prefix: string, es: seq<Example>)
    ensures |ExampleFields(prefix, es)| == |es|
    ensures forall k | 0 <= k < |es| :: ExampleFields(prefix, es)[k] == ExampleField(prefix, es[k])
  {
    if es != [] {
      ExampleFieldsSpec(prefix, es[..|es| - 1]);
    }
  }

  /** The help card's description opens with the command's description,
      has a Subcommands part only when there are subcommands and an
      Examples heading only when there are examples, and always the
      restrictions; there is one field per example, named after the prefixed
      example command and holding its explanation. */
  lemma HelpCardShape(c: BaseCommand, prefix: string)
    ensures var card := HelpCard(c, prefix);
      card.description[..|c.help.description|] == c.help.description &&
      (c.subCommands == [] ==> card.description == c.help.description + RestrictionsSection(c) + ExamplesSection(c)) &&
      (c.help.examples == [] ==> card.fields == [] && ExamplesSection(c) == "") &&
      |card.fields| == |c.help.examples| &&
      forall k | 0 <= k < |c.help.examples| ::
        card.fields[k].name == "`" + prefix + " " + c.help.examples[k].command + "`" &&
        card.fields[k].value == Text(c.help.examples[k].explanation)
  {
    ExampleFieldsSpec(prefix, c.help.examples);
    var d := c.help.description;
    var rest := SubCommandsSection(c.subCommands) + RestrictionsSection(c) + ExamplesSection(c);
    assert HelpCard(c, prefix).description == d + rest;
  }

  /** An entry lists the long name, each alias after a slash, the argument
      in angle brackets when there is one, all in backquotes, and then the
      description on its own line when there is one. */
  lemma SubCommandEntryShape(long: string, alias: string, arg: string)
    ensures SubCommandEntry(SubCommand(long, [alias], arg, "")) ==
      "\n\n`" + long + "/" + alias + (if arg != "" then " <" + arg + ">" else "") + "`"
    ensures SubCommandEntry(SubCommand(long, [], "", "d")) == "\n\n`" + long + "`" + "\nd"
  {
    assert SlashAliases([alias]) == SlashAliases([]) + "/" + alias;
  }

  /** One subcommand's entry, built piece by piece. */
  method BuildEntry(sc: SubCommand) returns (entry: string)
    ensures entry == SubCommandEntry(sc)
  {
    entry := "\n\n`" + sc.long;
    for j := 0 to |sc.aliases|
      invariant entry == "\n\n`" + sc.long + SlashAliases(sc.aliases[..j])
    {
      assert sc.aliases[..j + 1][..j] == sc.aliases[..j];
      entry := entry + "/" + sc.aliases[j];
    }
    assert sc.aliases[..|sc.aliases|] == sc.aliases;
    if sc.arg != "" {
      entry := entry + " <" + sc.arg + ">";
    }
    entry := entry + "`";
    if sc.description != "" {
      entry := entry + "\n" + sc.description;
    }
  }

  method BuildEntries(scs: seq<SubCommand>) returns (entries: string)
    ensures entries == SubCommandEntries(scs)
  {
    entries := "";
    for i := 0 to |scs|
      invariant entries == SubCommandEntries(scs[..i])
    {
      var entry := BuildEntry(scs[i]);
      assert scs[..i + 1][..i] == scs[..i];
      entries := entries + entry;
    }
    assert scs[..|scs|] == scs;
  }

  /** The description up to and including the restrictions. */
  method BuildDescription(c: BaseCommand) returns (desc: string)
    ensures desc == c.help.description + SubCommandsSection(c.subCommands) + RestrictionsSection(c)
  {
    var sub := "";
    if |c.subCommands| > 0 {
      var entries := BuildEntries(c.subCommands);
      sub := "\n\n__**Subcommands**__" + entries;
    }
    assert sub == SubCommandsSection(c.subCommands);
    desc := c.help.description + sub + RestrictionsSection(c);
  }

  method BuildTitle(c: BaseCommand) returns (title: string)
    ensures title == HelpTitle(c)
  {
    var aliases := "";
    for i := 0 to |c.aliases|
      invariant aliases == TitleAliases(c.aliases[..i])
    {
      assert c.aliases[..i + 1][..i] == c.aliases[..i];
      aliases := aliases + "/`" + c.aliases[i] + "`";
    }
    assert c.aliases[..|c.aliases|] == c.aliases;
    title := "â“ Help for `" + c.long + "`" + aliases + " command";
  }

  method BuildExampleFields(prefix: string, es: seq<Example>) returns (fields: seq<Field>)
    ensures fields == ExampleFields(prefix, es)
  {
    fields := [];
    for i := 0 to |es|
      invariant fields == ExampleFields(prefix, es[..i])
    {
      assert es[..i + 1][..i] == es[..i];
      fields := fields + [Field("`" + prefix + " " + es[i].command + "`", Text(es[i].explanation), false)];
    }
    assert es[..|es|] == es;
  }

  /** DisplayHelp: the card goes to the author's private channel; when that
      channel cannot be opened nothing is sent. */
  method DisplayHelp(c: BaseCommand, prefix: string, dm: Result<string, string>) returns (sent: Option<(string, Embed)>)
    ensures sent == if dm.Ok? then Some((dm.value, HelpCard(c, prefix))) else None
  {
    var desc := BuildDescription(c);
    var title := BuildTitle(c);
    var fields: seq<Field> := [];
    var examples := "";
    if |c.help.examples| > 0 {
      examples := "\n\n__**Examples**__";
      fields := BuildExampleFields(prefix, c.help.examples);
    }
    assert examples == ExamplesSection(c);
    assert fields == ExampleFields(prefix, c.help.examples);
    desc := desc + examples;
    if dm.Err? {
      return None;
    }
    return Some((dm.value, Embed(title, "", "", desc, fields, None)));
  }
}
