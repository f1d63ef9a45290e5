/**
 * The built-in help command (src/lib/BaseCommands/HelpCommand.ts). It holds the same
 * registry object the dispatch facade fills, so it sees every command registered before
 * and after it, under its name and under each alias. With no argument it lists the
 * distinct commands grouped by category; with one it shows the detail of the first
 * command, in registry order, that answers to that name.
 */
module HelpCommands {
  import opened Wrappers
  import opened Strings
  import opened Seqs
  import opened OrderedMaps
  import opened Plugins
  import opened RootCommands

  /** The command registry: every name and alias, each mapped to its loaded command. */
  type Registry = MapObject<string, Plugin<RootCommand>>

  /** The options the constructor passes to the command base class. */
  function HelpOptions(): CommandOptions {
    CommandOptions(
      "help",
      "Shows all available commands or detailed info about a specific command",
      Some(["h", "?"]),
      Some([CommandArg("command", "The command to get help for", false, None)]),
      None,
      Some(["help", "help automod", "help ping"]),
      Some("Utility"),
      None)
  }

  /** The registry values, with the loading details dropped. */
  function Units(ps: seq<Plugin<RootCommand>>): (r: seq<RootCommand>)
    ensures |r| == |ps| && forall i :: 0 <= i < |ps| ==> r[i] == ps[i].unit
  {
    seq(|ps|, i requires 0 <= i < |ps| => ps[i].unit)
  }

  function NameOf(c: RootCommand): string {
    c.name
  }

  /** `command.category || "General"`: the heading a command is listed under, never empty. */
  function Label(c: RootCommand): (l: string)
    ensures l != []
    ensures c.category != [] ==> l == c.category
  {
    if c.category == "" then "General" else c.category
  }

  // ---------------------------------------------------------------------------------
  // The listing

  /** The registry values without repeated names, each name's first value kept. */
  function UniqueCommands(cs: seq<RootCommand>): seq<RootCommand> {
    DedupBy(cs, NameOf)
  }

  function Labels(u: seq<RootCommand>): (r: seq<string>)
    ensures |r| == |u| && forall i :: 0 <= i < |u| ==> r[i] == Label(u[i])
  {
    seq(|u|, i requires 0 <= i < |u| => Label(u[i]))
  }

  /** The category headings in order of first appearance. */
  function Categories(u: seq<RootCommand>): seq<string> {
    Distinct(Labels(u))
  }

  /** The commands listed under heading `cat`, in order. */
  function Members(u: seq<RootCommand>, cat: string): seq<RootCommand> {
    Filter(u, c => Label(c) == cat)
  }

  const ListingHeader := "**\U{1F4DA} Available Commands**\n\n"
  const ListingFooter := "\nUse `!help <command>` to get detailed information about a specific command."

  /** One listing line: the bullet, the name in backticks and the description. */
  function CommandLine(c: RootCommand): string {
    "\U{2022} `" + c.name + "` - " + c.description + "\n"
  }

  function CommandLines(cs: seq<RootCommand>): string {
    if cs == [] then "" else CommandLines(cs[..|cs| - 1]) + CommandLine(cs[|cs| - 1])
  }

  /** A category block: the bold heading, one line per command, a blank line. */
  function GroupText(cat: string, cs: seq<RootCommand>): string {
    "**" + cat + "**\n" + CommandLines(cs) + "\n"
  }

  function GroupsText(u: seq<RootCommand>, cats: seq<string>): string {
    if cats == [] then ""
    else GroupsText(u, cats[..|cats| - 1]) + GroupText(cats[|cats| - 1], Members(u, cats[|cats| - 1]))
  }

  /** The reply to `!help` for a registry whose values, in order, are `cs`. */
  function ListingText(cs: seq<RootCommand>): string {
    var u := UniqueCommands(cs);
    ListingHeader + GroupsText(u, Categories(u)) + ListingFooter
  }

  // ---------------------------------------------------------------------------------
  // The detail

  /** Whether `c` answers to `name`, by its name or one of its aliases. */
  predicate Answers(c: RootCommand, name: string) {
    c.name == name || name in c.aliases
  }

  /** The position of the first command answering to `name`. */
  function FindIndex(cs: seq<RootCommand>, name: string): (r: Option<nat>)
    ensures r.None? <==> forall i :: 0 <= i < |cs| ==> !Answers(cs[i], name)
    ensures r.Some? ==> r.value < |cs| && Answers(cs[r.value], name)
    ensures r.Some? ==> forall j :: 0 <= j < r.value ==> !Answers(cs[j], name)
  {
    if cs == [] then None
    else if Answers(cs[0], name) then Some(0)
    else match FindIndex(cs[1..], name)
      case None => None
      case Some(i) => Some(i + 1)
  }

  function NotFoundText(name: string): string {
    "\U{274C} Command `" + name + "` not found. Use `!help` to see all commands."
  }

  function Quoted(aliases: seq<string>): (r: seq<string>)
    ensures |r| == |aliases| && forall i :: 0 <= i < |aliases| ==> r[i] == "`" + aliases[i] + "`"
  {
    seq(|aliases|, i requires 0 <= i < |aliases| => "`" + aliases[i] + "`")
  }

  /** The aliases block: present exactly when there are aliases. */
  function AliasesSection(aliases: seq<string>): (r: string)
    ensures r == [] <==> aliases == []
    ensures aliases != [] ==> StartsWith(r, "**Aliases:** ")
  {
    if |aliases| > 0 then "**Aliases:** " + Join(Quoted(aliases), ", ") + "\n\n" else ""
  }

  /** One argument line; `(Options: …)` follows whenever an options list is given, even an empty one. */
  function ArgLine(arg: CommandArg): string {
    var required := if arg.required then "**Required**" else "*Optional*";
    var options := if arg.options.Some? then " (Options: " + Join(arg.options.value, ", ") + ")" else "";
    "\U{2022} `" + arg.name + "` " + required + " - " + arg.description + options + "\n"
  }

  function ArgLines(args: seq<CommandArg>): string {
    if args == [] then "" else ArgLines(args[..|args| - 1]) + ArgLine(args[|args| - 1])
  }

  /** The arguments block: present exactly when arguments are declared. */
  function ArgumentsSection(args: seq<CommandArg>): (r: string)
    ensures r == [] <==> args == []
    ensures args != [] ==> StartsWith(r, "**Arguments:**\n")
  {
    if |args| > 0 then "**Arguments:**\n" + ArgLines(args) + "\n" else ""
  }

  function ExampleLine(example: string): string {
    "\U{2022} `!" + example + "`\n"
  }

  function ExampleLines(examples: seq<string>): string {
    if examples == [] then "" else ExampleLines(examples[..|examples| - 1]) + ExampleLine(examples[|examples| - 1])
  }

  /** The examples block: present exactly when there are examples. */
  function ExamplesSection(examples: seq<string>): (r: string)
    ensures r == [] <==> examples == []
    ensures examples != [] ==> StartsWith(r, "**Examples:**\n")
  {
    if |examples| > 0 then "**Examples:**\n" + ExampleLines(examples) + "\n" else ""
  }

  /** The cooldown line: present exactly when the cooldown is positive. */
  function CooldownSection(cooldown: int): (r: string)
    ensures r == [] <==> cooldown <= 0
    ensures cooldown > 0 ==> StartsWith(r, "**Cooldown:** ")
  {
    if cooldown > 0 then "**Cooldown:** " + NatToString(cooldown) + "s\n" else ""
  }

  function UsageLine(c: RootCommand): string {
    "**Usage:** `!" + GetUsage(c) + "`\n\n"
  }

  function CategoryLine(c: RootCommand): string {
    "**Category:** " + c.category + "\n"
  }

  /** The title and description that open every detail. */
  function DetailHead(c: RootCommand): string {
    "**\U{1F4D6} Help: " + c.name + "**\n\n" + "**Description:** " + c.description + "\n\n"
  }

  /** The detail of one command: title, description, then the sections in fixed order. */
  function DetailText(c: RootCommand): string {
    DetailHead(c) + AliasesSection(c.aliases) + UsageLine(c) + ArgumentsSection(c.args)
      + ExamplesSection(c.examples) + CategoryLine(c) + CooldownSection(c.cooldown)
  }

  /** The reply to `!help <name>` for a registry whose values, in order, are `cs`. */
  function DetailReply(cs: seq<RootCommand>, name: string): string {
    match FindIndex(cs, name)
    case None => NotFoundText(name)
    case Some(i) => DetailText(cs[i])
  }

  // ---------------------------------------------------------------------------------
  // The command object

  class HelpCommand {
    /** The fields the command base class keeps. */
    const command: RootCommand
    /** The registry, shared with whoever constructed this command. */
    const commands: Registry

    constructor(commands: Registry)
      ensures this.command == NewCommand(HelpOptions()) && this.commands == commands
    {
      this.command := NewCommand(HelpOptions());
      this.commands := commands;
    }

    /** The registry values, in order. */
    function Entries(): seq<RootCommand>
      reads commands
      requires commands.contents.Valid()
    {
      Units(commands.contents.Values())
    }

    /** `execute`: the listing without arguments, otherwise the detail for the lower-cased first one. */
    method Execute(args: seq<string>) returns (reply: string)
      requires commands.contents.Valid()
      ensures args == [] ==> reply == ListingText(Entries())
      ensures args != [] ==> reply == DetailReply(Entries(), ToLower(args[0]))
    {
      if |args| == 0 {
        reply := ListAllCommands();
        return;
      }
      var commandName := ToLower(args[0]);
      reply := ShowCommandHelp(commandName);
    }

    /** `listAllCommands`: de-duplicate by name, group by category, render. */
    method ListAllCommands() returns (message: string)
      requires commands.contents.Valid()
      ensures message == ListingText(Entries())
    {
      var values := Entries();
      var u := UniqueByName(values);
      var categories := GroupByCategory(u);
      message := RenderListing(u, categories);
    }

    /** `showCommandHelp`: find the first command answering to the name, then render its detail. */
    method ShowCommandHelp(commandName: string) returns (message: string)
      requires commands.contents.Valid()
      ensures message == DetailReply(Entries(), commandName)
    {
      var values := Entries();
      var i := 0;
      while i < |values| && !(values[i].name == commandName || commandName in values[i].aliases)
        invariant 0 <= i <= |values|
        invariant forall j :: 0 <= j < i ==> !Answers(values[j], commandName)
      {
        i := i + 1;
      }

      if i == |values| {
        assert FindIndex(values, commandName).None?;
        message := "\U{274C} Command `" + commandName + "` not found. Use `!help` to see all commands.";
        assert message == NotFoundText(commandName);
        return;
      }
      DetailReplyAt(values, commandName, i);
      message := DetailMessage(values[i]);
    }
  }

  /** The first pass of `listAllCommands`: a map from name to the first command carrying it. */
  method UniqueByName(values: seq<RootCommand>) returns (u: seq<RootCommand>)
    ensures u == UniqueCommands(values)
  {
    var unique: OMap<string, RootCommand> := Empty();
    for i := 0 to |values|
      invariant unique.Valid()
      invariant unique.Values() == UniqueCommands(values[..i])
      invariant forall k :: unique.Has(k) <==> HasKey(values[..i], NameOf, k)
    {
      var c := values[i];
      UniqueByNameStep(unique, values, i);
      if !unique.Has(c.name) {
        unique := unique.Put(c.name, c);
      }
    }
    assert values[..|values|] == values;
    u := unique.Values();
  }

  /** The second pass: a map from category label to its commands, labels in order of first appearance. */
  method GroupByCategory(u: seq<RootCommand>) returns (categories: OMap<string, seq<RootCommand>>)
    ensures categories.Valid()
    ensures categories.keys == Categories(u)
    ensures forall k :: k in categories.vals ==> categories.vals[k] == Members(u, k)
  {
    categories := Empty();
    for j := 0 to |u|
      invariant categories.Valid()
      invariant categories.keys == Categories(u[..j])
      invariant forall k :: k in categories.vals ==> categories.vals[k] == Members(u[..j], k)
      invariant forall k :: k !in categories.vals ==> Members(u[..j], k) == []
    {
      var c := u[j];
      var category := Label(c);
      GroupByCategoryStep(categories, u, j);
      if !categories.Has(category) {
        categories := categories.Put(category, []);
      }
      categories := categories.Put(category, categories.vals[category] + [c]);
    }
    assert u[..|u|] == u;
  }

  /** The third pass: the header, one group per category, the footer. */
  method RenderListing(u: seq<RootCommand>, categories: OMap<string, seq<RootCommand>>) returns (message: string)
    requires categories.Valid()
    requires categories.keys == Categories(u)
    requires forall k :: k in categories.vals ==> categories.vals[k] == Members(u, k)
    ensures message == ListingHeader + GroupsText(u, Categories(u)) + ListingFooter
  {
    var cats := categories.keys;
    message := ListingHeader;
    for k := 0 to |cats|
      invariant message == ListingHeader + GroupsText(u, cats[..k])
    {
      var category := cats[k];
      var members := categories.vals[category];
      ghost var before := message;
      message := message + "**" + category + "**\n";
      message := AppendCommandLines(message, members);
      message := message + "\n";
      RegroupGroup(before, category, CommandLines(members));
      GroupsTextStep(u, cats, k);
      AppendAssoc(ListingHeader, GroupsText(u, cats[..k]), GroupText(category, members));
    }
    assert cats[..|cats|] == cats;
    message := message + ListingFooter;
  }

  /** Appends one bullet line per command. */
  method AppendCommandLines(prefix: string, members: seq<RootCommand>) returns (message: string)
    ensures message == prefix + CommandLines(members)
  {
    message := prefix;
    for m := 0 to |members|
      invariant message == prefix + CommandLines(members[..m])
    {
      CommandLinesStep(members, m);
      AppendAssoc(prefix, CommandLines(members[..m]), CommandLine(members[m]));
      message := message + CommandLine(members[m]);
    }
    assert members[..|members|] == members;
  }

  /** The aliases block of `showCommandHelp`, appended to `prefix`. */
  method AppendAliases(prefix: string, aliases: seq<string>) returns (message: string)
    ensures message == prefix + AliasesSection(aliases)
  {
    message := prefix;
    if |aliases| > 0 {
      message := message + "**Aliases:** " + Join(Quoted(aliases), ", ") + "\n\n";
      RegroupSection(prefix, "**Aliases:** ", Join(Quoted(aliases), ", "), "\n\n");
    }
  }

  /** The arguments block: a heading, one line per declared argument, a blank line. */
  method AppendArguments(prefix: string, args: seq<CommandArg>) returns (message: string)
    ensures message == prefix + ArgumentsSection(args)
  {
    message := prefix;
    if |args| > 0 {
      message := message + "**Arguments:**\n";
      ghost var lines := message;
      for k := 0 to |args|
        invariant message == lines + ArgLines(args[..k])
      {
        ArgLinesStep(args, k);
        AppendAssoc(lines, ArgLines(args[..k]), ArgLine(args[k]));
        message := message + ArgLine(args[k]);
      }
      assert args[..|args|] == args;
      message := message + "\n";
      RegroupSection(prefix, "**Arguments:**\n", ArgLines(args), "\n");
    }
  }

  /** The examples block: a heading, one bullet line per example, a blank line. */
  method AppendExamples(prefix: string, examples: seq<string>) returns (message: string)
    ensures message == prefix + ExamplesSection(examples)
  {
    message := prefix;
    if |examples| > 0 {
      message := message + "**Examples:**\n";
      ghost var lines := message;
      for k := 0 to |examples|
        invariant message == lines + ExampleLines(examples[..k])
      {
        ExampleLinesStep(examples, k);
        AppendAssoc(lines, ExampleLines(examples[..k]), ExampleLine(examples[k]));
        message := message + ExampleLine(examples[k]);
      }
      assert examples[..|examples|] == examples;
      message := message + "\n";
      RegroupSection(prefix, "**Examples:**\n", ExampleLines(examples), "\n");
    }
  }

  /** The cooldown line, only for a positive cooldown. */
  method AppendCooldown(prefix: string, cooldown: int) returns (message: string)
    ensures message == prefix + CooldownSection(cooldown)
  {
    message := prefix;
    if cooldown > 0 {
      message := message + "**Cooldown:** " + NatToString(cooldown) + "s\n";
      RegroupSection(prefix, "**Cooldown:** ", NatToString(cooldown), "s\n");
    }
  }

  /** The second half of `showCommandHelp`: the detail message, built section by section. */
  method DetailMessage(c: RootCommand) returns (message: string)
    ensures message == DetailText(c)
  {
    message := "**\U{1F4D6} Help: " + c.name + "**\n\n";
    message := message + "**Description:** " + c.description + "\n\n";
    assert message == DetailHead(c);
    message := AppendAliases(message, c.aliases);
    ghost var withAliases := message;
    message := message + "**Usage:** `!" + GetUsage(c) + "`\n\n";
    RegroupSection(withAliases, "**Usage:** `!", GetUsage(c), "`\n\n");
    message := AppendArguments(message, c.args);
    message := AppendExamples(message, c.examples);
    ghost var withExamples := message;
    message := message + "**Category:** " + c.category + "\n";
    RegroupSection(withExamples, "**Category:** ", c.category, "\n");
    message := AppendCooldown(message, c.cooldown);
  }

  lemma CommandLinesStep(cs: seq<RootCommand>, k: nat)
    requires k < |cs|
    ensures CommandLines(cs[..k + 1]) == CommandLines(cs[..k]) + CommandLine(cs[k])
  {
    assert cs[..k + 1][..k] == cs[..k];
  }

  lemma GroupsTextStep(u: seq<RootCommand>, cats: seq<string>, k: nat)
    requires k < |cats|
    ensures GroupsText(u, cats[..k + 1]) == GroupsText(u, cats[..k]) + GroupText(cats[k], Members(u, cats[k]))
  {
    assert cats[..k + 1][..k] == cats[..k];
  }

  lemma ArgLinesStep(args: seq<CommandArg>, k: nat)
    requires k < |args|
    ensures ArgLines(args[..k + 1]) == ArgLines(args[..k]) + ArgLine(args[k])
  {
    assert args[..k + 1][..k] == args[..k];
  }

  lemma ExampleLinesStep(examples: seq<string>, k: nat)
    requires k < |examples|
    ensures ExampleLines(examples[..k + 1]) == ExampleLines(examples[..k]) + ExampleLine(examples[k])
  {
    assert examples[..k + 1][..k] == examples[..k];
  }

  /** The first command answering to `name` is the one whose detail is shown. */
  lemma DetailReplyAt(cs: seq<RootCommand>, name: string, i: nat)
    requires i < |cs| && Answers(cs[i], name)
    requires forall j :: 0 <= j < i ==> !Answers(cs[j], name)
    ensures FindIndex(cs, name) == Some(i)
    ensures DetailReply(cs, name) == DetailText(cs[i])
  {
  }

  /** Appending a three-part section piece by piece appends the section. */
  lemma RegroupSection(m: string, a: string, b: string, c: string)
    ensures m + a + b + c == m + (a + b + c)
  {
  }

  /** Appending a category heading, its lines and a blank line appends its group. */
  lemma RegroupGroup(m: string, cat: string, lines: string)
    ensures m + "**" + cat + "**\n" + lines + "\n" == m + ("**" + cat + "**\n" + lines + "\n")
  {
  }

  lemma UniqueStep(values: seq<RootCommand>, i: nat)
    requires i < |values|
    ensures values[..i + 1] == values[..i] + [values[i]]
    ensures UniqueCommands(values[..i + 1]) ==
      if HasKey(values[..i], NameOf, values[i].name) then UniqueCommands(values[..i])
      else UniqueCommands(values[..i]) + [values[i]]
    ensures forall k :: HasKey(values[..i + 1], NameOf, k) <==> HasKey(values[..i], NameOf, k) || k == values[i].name
  {
    assert values[..i + 1] == values[..i] + [values[i]];
    DedupByAppend(values[..i], values[i], NameOf);
    DedupByKeepsKeys(values[..i], NameOf);
    HasKeyAppend(values[..i], values[i], NameOf);
  }

  /** One step of the first pass keeps its invariant. */
  lemma UniqueByNameStep(unique: OMap<string, RootCommand>, values: seq<RootCommand>, i: nat)
    requires i < |values| && unique.Valid()
    requires unique.Values() == UniqueCommands(values[..i])
    requires forall k :: unique.Has(k) <==> HasKey(values[..i], NameOf, k)
    ensures var next := if unique.Has(values[i].name) then unique else unique.Put(values[i].name, values[i]);
      && next.Valid()
      && next.Values() == UniqueCommands(values[..i + 1])
      && forall k :: next.Has(k) <==> HasKey(values[..i + 1], NameOf, k)
  {
    var c := values[i];
    UniqueStep(values, i);
    if !unique.Has(c.name) {
      PutValues(unique, c.name, c);
      var next := unique.Put(c.name, c);
      forall k ensures next.Has(k) <==> HasKey(values[..i + 1], NameOf, k) {
        assert next.Has(k) <==> unique.Has(k) || k == c.name;
      }
    }
  }

  /** The map the second pass holds after filing `c` under its label. */
  function FileUnder(categories: OMap<string, seq<RootCommand>>, c: RootCommand): OMap<string, seq<RootCommand>> {
    var cat := Label(c);
    var started := if categories.Has(cat) then categories else categories.Put(cat, []);
    started.Put(cat, started.vals[cat] + [c])
  }

  /** One step of the second pass keeps its invariant. */
  lemma GroupByCategoryStep(categories: OMap<string, seq<RootCommand>>, u: seq<RootCommand>, j: nat)
    requires j < |u| && categories.Valid()
    requires categories.keys == Categories(u[..j])
    requires forall k :: k in categories.vals ==> categories.vals[k] == Members(u[..j], k)
    requires forall k :: k !in categories.vals ==> Members(u[..j], k) == []
    ensures FileUnder(categories, u[j]).Valid()
    ensures FileUnder(categories, u[j]).keys == Categories(u[..j + 1])
    ensures forall k :: k in FileUnder(categories, u[j]).vals ==> FileUnder(categories, u[j]).vals[k] == Members(u[..j + 1], k)
    ensures forall k :: k !in FileUnder(categories, u[j]).vals ==> Members(u[..j + 1], k) == []
  {
    CategoriesStep(u, j);
    FileUnderKeys(categories, u, j);
    FileUnderVals(categories, u, j);
  }

  lemma FileUnderKeys(categories: OMap<string, seq<RootCommand>>, u: seq<RootCommand>, j: nat)
    requires j < |u| && categories.Valid()
    requires categories.keys == Categories(u[..j])
    ensures FileUnder(categories, u[j]).Valid()
    ensures FileUnder(categories, u[j]).keys == Categories(u[..j + 1])
  {
    var cat := Label(u[j]);
    CategoriesStep(u, j);
    HasKeyId(Categories(u[..j]), cat);
    var started := if categories.Has(cat) then categories else categories.Put(cat, []);
    PutKeepsValid(categories, cat, []);
    PutKeepsValid(started, cat, started.vals[cat] + [u[j]]);
    if categories.Has(cat) {
      assert cat in categories.keys;
    }
  }

  lemma FileUnderVals(categories: OMap<string, seq<RootCommand>>, u: seq<RootCommand>, j: nat)
    requires j < |u|
    requires forall k :: k in categories.vals ==> categories.vals[k] == Members(u[..j], k)
    requires forall k :: k !in categories.vals ==> Members(u[..j], k) == []
    ensures forall k :: k in FileUnder(categories, u[j]).vals ==> FileUnder(categories, u[j]).vals[k] == Members(u[..j + 1], k)
    ensures forall k :: k !in FileUnder(categories, u[j]).vals ==> Members(u[..j + 1], k) == []
  {
    var cat := Label(u[j]);
    CategoriesStep(u, j);
    var next := FileUnder(categories, u[j]);
    forall k | k in next.vals
      ensures next.vals[k] == Members(u[..j + 1], k)
    {
      if k != cat {
        assert next.vals[k] == categories.vals[k];
      }
    }
  }

  lemma CategoriesStep(u: seq<RootCommand>, j: nat)
    requires j < |u|
    ensures Categories(u[..j + 1]) ==
      if HasKey(Categories(u[..j]), Id, Label(u[j])) then Categories(u[..j])
      else Categories(u[..j]) + [Label(u[j])]
    ensures forall k :: Members(u[..j + 1], k) == Members(u[..j], k) + (if Label(u[j]) == k then [u[j]] else [])
  {
    assert u[..j + 1][..j] == u[..j];
    assert Labels(u[..j + 1]) == Labels(u[..j]) + [Label(u[j])];
    DedupByAppend(Labels(u[..j]), Label(u[j]), Id);
    DedupByKeepsKeys(Labels(u[..j]), Id);
  }

  // ---------------------------------------------------------------------------------
  // What the help command promises

  /** The help command's own metadata, and the usage line derived from it. */
  lemma HelpMetadata()
    ensures var h := NewCommand(HelpOptions());
      && h.name == "help" && h.aliases == ["h", "?"] && h.category == "Utility" && h.cooldown == 0
      && |h.args| == 1 && h.args[0].name == "command" && !h.args[0].required
      && GetUsage(h) == "help [<command>]"
  {
    var h := NewCommand(HelpOptions());
    HelpUsagePieces();
    UsageShape(h);
  }

  lemma HelpUsagePieces()
    ensures Join(RenderArgs([CommandArg("command", "The command to get help for", false, None)]), " ") == "[<command>]"
    ensures !IsSpace("help"[0]) && !IsSpace("help"[3])
    ensures "help" + " " + "[<command>]" == "help [<command>]"
  {
  }

  /**
   * The listing names each command once: no two listed commands share a name, every
   * registered name is listed, and the command listed under a name is the first
   * registry value carrying it.
   */
  lemma ListingNamesEachCommandOnce(cs: seq<RootCommand>)
    ensures KeysDistinct(UniqueCommands(cs), NameOf)
    ensures forall n :: HasKey(UniqueCommands(cs), NameOf, n) <==> HasKey(cs, NameOf, n)
    ensures var u := UniqueCommands(cs);
      forall i :: 0 <= i < |u| ==> HasKey(cs, NameOf, NameOf(u[i])) && u[i] == cs[FirstIndex(cs, NameOf, NameOf(u[i]))]
  {
    DedupByKeysDistinct(cs, NameOf);
    DedupByKeepsKeys(cs, NameOf);
    DedupByKeepsFirsts(cs, NameOf);
    var u := UniqueCommands(cs);
    forall i | 0 <= i < |u|
      ensures HasKey(cs, NameOf, NameOf(u[i])) && u[i] == cs[FirstIndex(cs, NameOf, NameOf(u[i]))]
    {
      assert u == DedupBy(cs, NameOf);
    }
  }

  /**
   * Grouping: the group labels are distinct and never empty, each is the label of some
   * listed command, every listed command's label is one of them, and a command is a
   * member of exactly the group of its own label.
   */
  lemma GroupsPartitionCommands(u: seq<RootCommand>)
    ensures forall i, j :: 0 <= i < j < |Categories(u)| ==> Categories(u)[i] != Categories(u)[j]
    ensures forall k :: 0 <= k < |Categories(u)| ==> Categories(u)[k] != []
    ensures forall k :: 0 <= k < |Categories(u)| ==> exists i :: 0 <= i < |u| && Label(u[i]) == Categories(u)[k]
    ensures forall i :: 0 <= i < |u| ==> Label(u[i]) in Categories(u)
    ensures forall c, cat :: c in Members(u, cat) <==> c in u && Label(c) == cat
  {
    var ls := Labels(u);
    DedupByKeysDistinct(ls, Id);
    DedupByKeepsKeys(ls, Id);
    DedupByKeepsFirsts(ls, Id);
    forall k | 0 <= k < |Categories(u)|
      ensures Categories(u)[k] != [] && exists i :: 0 <= i < |u| && Label(u[i]) == Categories(u)[k]
    {
      var cat := Categories(u)[k];
      assert HasKey(ls, Id, Id(cat));
      var i := FirstIndex(ls, Id, cat);
      assert Label(u[i]) == cat;
    }
    forall i | 0 <= i < |u| ensures Label(u[i]) in Categories(u) {
      assert Id(ls[i]) == Label(u[i]);
      assert HasKey(ls, Id, Label(u[i]));
      HasKeyId(Categories(u), Label(u[i]));
    }
    forall c, cat ensures c in Members(u, cat) <==> c in u && Label(c) == cat {
      if c in Members(u, cat) {
        var i :| 0 <= i < |Members(u, cat)| && Members(u, cat)[i] == c;
      }
      if c in u && Label(c) == cat {
        var i :| 0 <= i < |u| && u[i] == c;
      }
    }
  }

  lemma {:induction false} CommandLinesShowEach(cs: seq<RootCommand>, k: nat)
    requires k < |cs|
    ensures Contains(CommandLines(cs), CommandLine(cs[k]))
    decreases |cs|
  {
    var init, last := cs[..|cs| - 1], cs[|cs| - 1];
    if k == |cs| - 1 {
      ContainsRight(CommandLines(init), CommandLine(last));
    } else {
      CommandLinesShowEach(init, k);
      ContainsLeft(CommandLines(init), CommandLine(last));
      ContainsTransitive(CommandLines(cs), CommandLines(init), CommandLine(cs[k]));
    }
  }

  lemma {:induction false} GroupsTextShowsEach(u: seq<RootCommand>, cats: seq<string>, k: nat)
    requires k < |cats|
    ensures Contains(GroupsText(u, cats), GroupText(cats[k], Members(u, cats[k])))
    decreases |cats|
  {
    var init, last := cats[..|cats| - 1], cats[|cats| - 1];
    if k == |cats| - 1 {
      ContainsRight(GroupsText(u, init), GroupText(last, Members(u, last)));
    } else {
      GroupsTextShowsEach(u, init, k);
      ContainsLeft(GroupsText(u, init), GroupText(last, Members(u, last)));
      ContainsTransitive(GroupsText(u, cats), GroupsText(u, init), GroupText(cats[k], Members(u, cats[k])));
    }
  }

  /** A group shows a line for each of its members. */
  lemma GroupShowsMember(u: seq<RootCommand>, cat: string, q: nat)
    requires q < |Members(u, cat)|
    ensures Contains(GroupText(cat, Members(u, cat)), CommandLine(Members(u, cat)[q]))
  {
    var members := Members(u, cat);
    CommandLinesShowEach(members, q);
    ContainsMiddle("**" + cat + "**\n", CommandLines(members), "\n");
    ContainsTransitive(GroupText(cat, members), CommandLines(members), CommandLine(members[q]));
  }

  /** The listing opens with its header, closes with the `!help <command>` hint, and shows a line for every listed command. */
  lemma ListingShowsEveryCommand(cs: seq<RootCommand>, c: RootCommand)
    requires c in UniqueCommands(cs)
    ensures StartsWith(ListingText(cs), ListingHeader)
    ensures EndsWith(ListingText(cs), ListingFooter)
    ensures Contains(ListingText(cs), CommandLine(c))
  {
    var u := UniqueCommands(cs);
    var groups := GroupsText(u, Categories(u));
    GroupsPartitionCommands(u);
    var p :| 0 <= p < |Categories(u)| && Categories(u)[p] == Label(c);
    var members := Members(u, Label(c));
    assert c in members;
    var q :| 0 <= q < |members| && members[q] == c;
    GroupShowsMember(u, Label(c), q);
    GroupsTextShowsEach(u, Categories(u), p);
    ContainsTransitive(groups, GroupText(Label(c), members), CommandLine(c));
    Framed(ListingHeader, groups, ListingFooter);
    ContainsTransitive(ListingText(cs), groups, CommandLine(c));
  }

  /**
   * The detail opens with the title and description and always shows the usage and
   * category lines; each optional section is shown whenever it is non-empty.
   */
  lemma DetailShowsEverySection(c: RootCommand)
    ensures StartsWith(DetailText(c), DetailHead(c))
    ensures Contains(DetailText(c), UsageLine(c)) && Contains(DetailText(c), CategoryLine(c))
    ensures Contains(DetailText(c), AliasesSection(c.aliases))
    ensures Contains(DetailText(c), ArgumentsSection(c.args))
    ensures Contains(DetailText(c), ExamplesSection(c.examples))
    ensures Contains(DetailText(c), CooldownSection(c.cooldown))
  {
    SevenPieces(DetailHead(c), AliasesSection(c.aliases), UsageLine(c), ArgumentsSection(c.args),
      ExamplesSection(c.examples), CategoryLine(c), CooldownSection(c.cooldown));
  }

  /**
   * The sections come in the source's order: the usage line lies between the opening and
   * the category line, and the detail ends with the category line followed by the
   * cooldown section, so with no cooldown the category line is last.
   */
  lemma DetailSectionOrder(c: RootCommand)
    ensures var t := DetailText(c);
      exists i :: |DetailHead(c)| <= i <= |t| - |CategoryLine(c)| - |CooldownSection(c.cooldown)| - |UsageLine(c)|
        && StartsWith(t[i..], UsageLine(c))
    ensures EndsWith(DetailText(c), CategoryLine(c) + CooldownSection(c.cooldown))
    ensures c.cooldown <= 0 ==> EndsWith(DetailText(c), CategoryLine(c))
  {
    var h, a, u := DetailHead(c), AliasesSection(c.aliases), UsageLine(c);
    var k, d := CategoryLine(c), CooldownSection(c.cooldown);
    SevenPiecesOrder(h, a, u, ArgumentsSection(c.args), ExamplesSection(c.examples), k, d);
    var i := |h| + |a|;
    assert StartsWith(DetailText(c)[i..], u);
    if c.cooldown <= 0 {
      assert k + d == k;
    }
  }

  /** No command answers to `name`: the reply is the not-found message. */
  lemma DetailReplyNotFound(cs: seq<RootCommand>, name: string)
    requires forall i :: 0 <= i < |cs| ==> !Answers(cs[i], name)
    ensures DetailReply(cs, name) == NotFoundText(name)
  {
  }
}
