/**
 * The command base class (src/lib/RootCommand.ts): the declared arguments of a command,
 * the defaults its constructor applies, the argument check `parseArgs` and the usage line
 * `getUsage`.
 */
module RootCommands {
  import opened Wrappers
  import opened Strings

  /** One declared argument; an omitted `required` is false. */
  datatype CommandArg = CommandArg(
    name: string,
    description: string,
    required: bool,
    options: Option<seq<string>>)

  /** What a subclass passes to the constructor; `None` is an omitted property. */
  datatype CommandOptions = CommandOptions(
    name: string,
    description: string,
    aliases: Option<seq<string>>,
    args: Option<seq<CommandArg>>,
    usage: Option<string>,
    examples: Option<seq<string>>,
    category: Option<string>,
    cooldown: Option<int>)

  /** The readonly fields of a constructed command; `cooldown` is in seconds. */
  datatype RootCommand = RootCommand(
    name: string,
    description: string,
    aliases: seq<string>,
    args: seq<CommandArg>,
    usage: Option<string>,
    examples: seq<string>,
    category: string,
    cooldown: int)

  /** The outcome of `parseArgs`. */
  datatype ParsedArgs = ParsedArgs(valid: bool, error: Option<string>, args: seq<string>)

  /** The constructor: omitted lists become empty, the category "General", the cooldown 0. */
  function NewCommand(o: CommandOptions): (c: RootCommand)
    ensures c.name == o.name && c.description == o.description && c.usage == o.usage
    ensures c.aliases == o.aliases.GetOr([]) && c.args == o.args.GetOr([])
    ensures c.examples == o.examples.GetOr([])
    ensures o.category.None? ==> c.category == "General"
    ensures o.category.Some? ==> c.category == o.category.value
    ensures o.cooldown.None? ==> c.cooldown == 0
    ensures o.cooldown.Some? ==> c.cooldown == o.cooldown.value
  {
    RootCommand(o.name, o.description, o.aliases.GetOr([]), o.args.GetOr([]), o.usage,
      o.examples.GetOr([]), o.category.GetOr("General"), o.cooldown.GetOr(0))
  }

  /** The number of declarations marked required, wherever they stand. */
  function RequiredCount(args: seq<CommandArg>): (n: nat)
    ensures n <= |args|
    ensures n == 0 <==> forall i :: 0 <= i < |args| ==> !args[i].required
    ensures n == |args| <==> forall i :: 0 <= i < |args| ==> args[i].required
  {
    if args == [] then 0
    else RequiredCount(args[..|args| - 1]) + (if args[|args| - 1].required then 1 else 0)
  }

  /** A declaration restricts its token only when it has a non-empty `options` list. */
  predicate Restricts(arg: CommandArg) {
    arg.options.Some? && |arg.options.value| > 0
  }

  /** Whether `token` passes declaration `arg`. */
  predicate Admits(arg: CommandArg, token: string) {
    !Restricts(arg) || token in arg.options.value
  }

  /** The lowest index from `from` on whose token its declaration does not admit. */
  function FirstRejected(args: seq<CommandArg>, tokens: seq<string>, from: nat): (r: Option<nat>)
    requires |tokens| <= |args|
    ensures r.Some? ==> from <= r.value < |tokens| && !Admits(args[r.value], tokens[r.value])
    ensures r.Some? ==> forall k :: from <= k < r.value ==> Admits(args[k], tokens[k])
    ensures r.None? <==> forall k :: from <= k < |tokens| ==> Admits(args[k], tokens[k])
    decreases |tokens| - from
  {
    if from >= |tokens| then None
    else if !Admits(args[from], tokens[from]) then Some(from)
    else FirstRejected(args, tokens, from + 1)
  }

  function MissingMessage(expected: nat, got: nat): string {
    "Missing required arguments. Expected at least " + NatToString(expected) + ", got " + NatToString(got)
  }

  function TooManyMessage(expected: nat, got: nat): string {
    "Too many arguments. Expected at most " + NatToString(expected) + ", got " + NatToString(got)
  }

  function InvalidMessage(arg: CommandArg): string
    requires arg.options.Some?
  {
    "Invalid value for argument '" + arg.name + "'. Must be one of: " + Join(arg.options.value, ", ")
  }

  /**
   * `parseArgs`: the count of required declarations first, then the count of all
   * declarations, then each token against its declaration's options.
   */
  function ParseResult(cmd: RootCommand, tokens: seq<string>): (r: ParsedArgs)
    ensures r.args == tokens
    ensures r.valid <==> r.error.None?
    ensures r.valid <==>
      && RequiredCount(cmd.args) <= |tokens| <= |cmd.args|
      && forall i :: 0 <= i < |tokens| ==> Admits(cmd.args[i], tokens[i])
  {
    var required := RequiredCount(cmd.args);
    if |tokens| < required then
      ParsedArgs(false, Some(MissingMessage(required, |tokens|)), tokens)
    else if |tokens| > |cmd.args| then
      ParsedArgs(false, Some(TooManyMessage(|cmd.args|, |tokens|)), tokens)
    else match FirstRejected(cmd.args, tokens, 0)
      case Some(i) => ParsedArgs(false, Some(InvalidMessage(cmd.args[i])), tokens)
      case None => ParsedArgs(true, None, tokens)
  }

  /** `parseArgs`, with its early-exit loop over the tokens. */
  method ParseArgs(cmd: RootCommand, tokens: seq<string>) returns (r: ParsedArgs)
    ensures r == ParseResult(cmd, tokens)
  {
    var required := RequiredCount(cmd.args);
    if |tokens| < required {
      return ParsedArgs(false, Some(MissingMessage(required, |tokens|)), tokens);
    }
    if |tokens| > |cmd.args| {
      return ParsedArgs(false, Some(TooManyMessage(|cmd.args|, |tokens|)), tokens);
    }
    var i := 0;
    while i < |tokens|
      invariant 0 <= i <= |tokens|
      invariant FirstRejected(cmd.args, tokens, 0) == FirstRejected(cmd.args, tokens, i)
    {
      var arg := cmd.args[i];
      if arg.options.Some? && |arg.options.value| > 0 && tokens[i] !in arg.options.value {
        return ParsedArgs(false, Some(InvalidMessage(arg)), tokens);
      }
      i := i + 1;
    }
    return ParsedArgs(true, None, tokens);
  }

  /** Fewer tokens than required declarations: the missing-arguments error. */
  lemma ParseMissing(cmd: RootCommand, tokens: seq<string>)
    requires |tokens| < RequiredCount(cmd.args)
    ensures ParseResult(cmd, tokens) ==
      ParsedArgs(false, Some(MissingMessage(RequiredCount(cmd.args), |tokens|)), tokens)
  {
  }

  /** Enough tokens but more than declarations: the too-many error. */
  lemma ParseTooMany(cmd: RootCommand, tokens: seq<string>)
    requires RequiredCount(cmd.args) <= |tokens| && |tokens| > |cmd.args|
    ensures ParseResult(cmd, tokens) ==
      ParsedArgs(false, Some(TooManyMessage(|cmd.args|, |tokens|)), tokens)
  {
  }

  /** Within the count range, the lowest rejected token is the one reported. */
  lemma ParseInvalid(cmd: RootCommand, tokens: seq<string>, i: nat)
    requires RequiredCount(cmd.args) <= |tokens| <= |cmd.args|
    requires i < |tokens| && !Admits(cmd.args[i], tokens[i])
    requires forall k :: 0 <= k < i ==> Admits(cmd.args[k], tokens[k])
    ensures cmd.args[i].options.Some?
    ensures ParseResult(cmd, tokens) ==
      ParsedArgs(false, Some(InvalidMessage(cmd.args[i])), tokens)
  {
  }

  /** One declaration rendered for the usage line. */
  function RenderArg(arg: CommandArg): string {
    var shown := if arg.options.Some? then "<" + Join(arg.options.value, "|") + ">" else "<" + arg.name + ">";
    if arg.required then shown else "[" + shown + "]"
  }

  function RenderArgs(args: seq<CommandArg>): (r: seq<string>)
    ensures |r| == |args| && forall i :: 0 <= i < |args| ==> r[i] == RenderArg(args[i])
  {
    if args == [] then [] else [RenderArg(args[0])] + RenderArgs(args[1..])
  }

  /** `getUsage`: a non-empty explicit usage wins; otherwise the name and the rendered declarations. */
  function GetUsage(cmd: RootCommand): (u: string)
    ensures cmd.usage.Some? && cmd.usage.value != "" ==> u == cmd.usage.value
  {
    if cmd.usage.Some? && cmd.usage.value != "" then cmd.usage.value
    else Trim(cmd.name + " " + Join(RenderArgs(cmd.args), " "))
  }

  lemma RenderedArgIsBracketed(arg: CommandArg)
    ensures var s := RenderArg(arg); |s| >= 2 && (s[0] == '<' || s[0] == '[') && (s[|s| - 1] == '>' || s[|s| - 1] == ']')
  {
  }

  lemma RenderedArgsAreNonEmpty(args: seq<CommandArg>)
    ensures forall i :: 0 <= i < |args| ==> RenderArgs(args)[i] != []
  {
    forall i | 0 <= i < |args| ensures RenderArgs(args)[i] != [] {
      RenderedArgIsBracketed(args[i]);
    }
  }

  lemma {:induction false} RenderedArgsAreBracketed(args: seq<CommandArg>)
    requires args != []
    ensures var s := Join(RenderArgs(args), " "); s != [] && !IsSpace(s[0]) && !IsSpace(s[|s| - 1])
  {
    var rs := RenderArgs(args);
    RenderedArgsAreNonEmpty(args);
    JoinEnds(rs, " ");
    var s, first, last := Join(rs, " "), rs[0], rs[|rs| - 1];
    RenderedArgIsBracketed(args[0]);
    RenderedArgIsBracketed(args[|args| - 1]);
    BracketIsNotSpace(first[0]);
    BracketIsNotSpace(last[|last| - 1]);
  }

  lemma BracketIsNotSpace(c: char)
    requires c == '<' || c == '[' || c == '>' || c == ']'
    ensures !IsSpace(c)
  {
  }

  /**
   * Without an explicit usage, and for a name with no surrounding white space, the usage
   * is the name alone when nothing is declared, and otherwise the name, one space and
   * the rendered declarations joined by single spaces.
   */
  lemma UsageShape(cmd: RootCommand)
    requires cmd.usage.None? || cmd.usage.value == ""
    requires cmd.name != [] && !IsSpace(cmd.name[0]) && !IsSpace(cmd.name[|cmd.name| - 1])
    ensures cmd.args == [] ==> GetUsage(cmd) == cmd.name
    ensures cmd.args != [] ==> GetUsage(cmd) == cmd.name + " " + Join(RenderArgs(cmd.args), " ")
  {
    if cmd.args == [] {
      assert cmd.name + " " + Join(RenderArgs(cmd.args), " ") == cmd.name + " ";
      TrimDropsTrailingSpace(cmd.name);
    } else {
      var j := Join(RenderArgs(cmd.args), " ");
      RenderedArgsAreBracketed(cmd.args);
      TrimOfTrimmed(cmd.name + " " + j);
    }
  }

  /** The pieces of the usage line `test <arg1> [<arg2>]`. */
  lemma RequiredAndOptionalPieces()
    ensures Join(RenderArgs([CommandArg("arg1", "First argument", true, None),
      CommandArg("arg2", "Second argument", false, None)]), " ") == "<arg1> [<arg2>]"
    ensures !IsSpace("test"[0]) && !IsSpace("test"[3])
    ensures "test" + " " + "<arg1> [<arg2>]" == "test <arg1> [<arg2>]"
  {
    assert ["<arg1>", "[<arg2>]"][1..] == ["[<arg2>]"];
  }

  /** The pieces of the usage line `option-test <easy|medium|hard>`. */
  lemma OptionsPieces()
    ensures Join(RenderArgs([CommandArg("mode", "Mode to use", true, Some(["easy", "medium", "hard"]))]), " ")
      == "<easy|medium|hard>"
    ensures !IsSpace("option-test"[0]) && !IsSpace("option-test"[10])
    ensures "option-test" + " " + "<easy|medium|hard>" == "option-test <easy|medium|hard>"
  {
    JoinOfOptions();
  }

  lemma JoinOfOptions()
    ensures Join(["easy", "medium", "hard"], "|") == "easy|medium|hard"
  {
    var opts := ["easy", "medium", "hard"];
    assert opts[1..] == ["medium", "hard"] && opts[1..][1..] == ["hard"];
  }

  /** `test <arg1> [<arg2>]`: one required and one optional declaration. */
  lemma UsageExampleRequiredAndOptional(cmd: RootCommand)
    requires cmd.name == "test" && cmd.usage.None?
    requires cmd.args == [CommandArg("arg1", "First argument", true, None), CommandArg("arg2", "Second argument", false, None)]
    ensures GetUsage(cmd) == "test <arg1> [<arg2>]"
  {
    RequiredAndOptionalPieces();
    UsageShape(cmd);
  }

  /** `option-test <easy|medium|hard>`: a required declaration with options. */
  lemma UsageExampleOptions(cmd: RootCommand)
    requires cmd.name == "option-test" && cmd.usage.None?
    requires cmd.args == [CommandArg("mode", "Mode to use", true, Some(["easy", "medium", "hard"]))]
    ensures GetUsage(cmd) == "option-test <easy|medium|hard>"
  {
    OptionsPieces();
    UsageShape(cmd);
  }

  /**
   * An empty `options` list is truthy for `getUsage`, which shows it as `<>`, but empty
   * for `parseArgs`, which then lets any token through.
   */
  lemma EmptyOptionsQuirk(arg: CommandArg, token: string)
    requires arg.options == Some([])
    ensures RenderArg(arg) == (if arg.required then "<>" else "[<>]")
    ensures Admits(arg, token)
  {
  }
}
