/**
 * The dispatch facade (src/lib/RDXServerApp.ts): it turns chat messages into command
 * calls, fills the command registry from the loader, attaches events to the SDK emitter
 * of their category, schedules jobs and redispatches job firings. Time is a parameter,
 * the platform's side effects are append-only logs, and user validators and executors
 * are oracles.
 */
module ServerApp {
  import opened Wrappers
  import opened Strings
  import opened OrderedMaps
  import opened Plugins
  import opened SdkEvents
  import opened RootCommands
  import opened RootEvents
  import opened RootJobs
  import Legacy = LegacyRootEventTypes
  import Current = RootEventTypes
  import Help = HelpCommands
  import FL = FileLoading

  // ---------------------------------------------------------------------------------
  // Message tokenisation

  /**
   * The message handler's parsing: text that does not start with the prefix is ignored;
   * otherwise the rest is trimmed and split on white space, and the first field,
   * lower-cased, is the command name unless it is empty.
   */
  function Tokenize(prefix: string, text: string): (r: Option<(string, seq<string>)>)
    ensures r.Some? ==> StartsWith(text, prefix) && r.value.0 != []
    ensures r.None? <==> !StartsWith(text, prefix) || Trim(text[|prefix|..]) == []
  {
    if !StartsWith(text, prefix) then None
    else
      var content := Trim(text[|prefix|..]);
      var fields := SplitWs(content);
      var name := ToLower(fields[0]);
      if name == [] then None else Some((name, fields[1..]))
  }

  /**
   * A message made of the prefix and words joined by single spaces dispatches the first
   * word, lower-cased, with the remaining words as its arguments.
   */
  lemma TokenizeJoined(prefix: string, words: seq<string>)
    requires |words| >= 1
    requires forall i :: 0 <= i < |words| ==> words[i] != [] && NoSpace(words[i])
    ensures Tokenize(prefix, prefix + Join(words, " ")) == Some((ToLower(words[0]), words[1..]))
  {
    var joined := Join(words, " ");
    var text := prefix + joined;
    assert text[|prefix|..] == joined;
    JoinEnds(words, " ");
    assert !IsSpace(words[0][0]);
    var last := words[|words| - 1];
    assert !IsSpace(last[|last| - 1]);
    TrimOfTrimmed(joined);
    SplitJoinRoundTrip(words);
  }

  /** The dispatch depends only on the trimmed text after the prefix. */
  lemma TokenizeSeesTrimmedText(prefix: string, a: string, b: string)
    requires Trim(a) == Trim(b)
    ensures Tokenize(prefix, prefix + a) == Tokenize(prefix, prefix + b)
  {
    assert (prefix + a)[..|prefix|] == prefix && (prefix + a)[|prefix|..] == a;
    assert (prefix + b)[..|prefix|] == prefix && (prefix + b)[|prefix|..] == b;
  }

  /** A trailing space after the words changes nothing. */
  lemma TokenizeIgnoresTrailingSpace(prefix: string, words: seq<string>)
    requires |words| >= 1
    requires forall i :: 0 <= i < |words| ==> words[i] != [] && NoSpace(words[i])
    ensures Tokenize(prefix, prefix + (Join(words, " ") + " ")) == Some((ToLower(words[0]), words[1..]))
  {
    var joined := Join(words, " ");
    JoinEnds(words, " ");
    assert !IsSpace(words[0][0]);
    var last := words[|words| - 1];
    assert !IsSpace(last[|last| - 1]);
    TrimDropsTrailingSpace(joined);
    TrimOfTrimmed(joined);
    TokenizeSeesTrimmedText(prefix, joined + " ", joined);
    TokenizeJoined(prefix, words);
  }

  // ---------------------------------------------------------------------------------
  // Event routing

  /** The position of the first category in `cs` that holds `v`. */
  function FirstCategory(cs: seq<Category>, v: string): (r: Option<nat>)
    ensures r.Some? ==> r.value < |cs|
  {
    if cs == [] then None
    else if v in Values(cs[0]) then Some(0)
    else match FirstCategory(cs[1..], v)
      case None => None
      case Some(i) => Some(i + 1)
  }

  /**
   * `FirstCategory` finds a category holding the value, and no earlier one holds it;
   * it finds none exactly when no category in `cs` holds the value.
   */
  lemma {:induction false} FirstCategoryFinds(cs: seq<Category>, v: string)
    ensures var r := FirstCategory(cs, v);
      && (r.None? <==> CountIn(cs, v) == 0)
      && (r.Some? ==> r.value < |cs| && v in Values(cs[r.value]))
      && (r.Some? ==> forall j :: 0 <= j < r.value ==> v !in Values(cs[j]))
  {
    if cs != [] && v !in Values(cs[0]) {
      FirstCategoryFinds(cs[1..], v);
    }
  }

  /**
   * `getEventEmitter`: the emitter of the first category, in the fixed order, whose
   * enumeration holds the value; a value no category holds is an error.
   */
  function GetEventEmitter(v: string): Result<Category> {
    match FirstCategory(CategoryOrder, v)
    case None => Err("Unknown event type: " + v)
    case Some(i) => Ok(CategoryOrder[i])
  }

  /**
   * The chosen emitter's category holds the value; the error comes exactly when no
   * category holds it, and names the value. (Stated apart from the function so that
   * the registration code, which only passes the result on, does not carry the tables.)
   */
  lemma EmitterAgreesWithCategories(v: string)
    ensures GetEventEmitter(v).Ok? ==> v in Values(GetEventEmitter(v).value)
    ensures GetEventEmitter(v).Err? <==> CategoryCount(v) == 0
    ensures GetEventEmitter(v).Err? ==> GetEventEmitter(v).error == "Unknown event type: " + v
  {
    FirstCategoryFinds(CategoryOrder, v);
  }

  /** A category holding the value wins over every later one, even if those hold it too. */
  lemma EmitterIsFirstMatch(v: string, i: nat)
    requires i < |CategoryOrder| && v in Values(CategoryOrder[i])
    requires forall j :: 0 <= j < i ==> v !in Values(CategoryOrder[j])
    ensures GetEventEmitter(v) == Ok(CategoryOrder[i])
  {
    var r := FirstCategory(CategoryOrder, v);
    FirstCategoryFinds(CategoryOrder, v);
    assert r.Some?;
    if r.value < i {
    } else if r.value > i {
    }
  }

  /** A value that exactly one category holds is routed to that category. */
  lemma UniqueCategoryIsChosen(v: string, c: Category)
    requires forall d :: v in Values(d) <==> d == c
    ensures GetEventEmitter(v) == Ok(c)
  {
    assert c in CategoryOrder by {
      match c
      case ChannelMessageEvent => assert CategoryOrder[0] == c;
      case CommunityEvent => assert CategoryOrder[1] == c;
      case CommunityMemberBanEvent => assert CategoryOrder[2] == c;
      case CommunityMemberEvent => assert CategoryOrder[3] == c;
      case ChannelEvent => assert CategoryOrder[4] == c;
      case ChannelGroupEvent => assert CategoryOrder[5] == c;
      case ChannelDirectoryEvent => assert CategoryOrder[6] == c;
    }
    CountInSingle(CategoryOrder, v, c);
    EmitterAgreesWithCategories(v);
  }

  /**
   * With the older event table, the eight channel-message events are routed to the
   * channel-message emitter, and the two community-member events are unknown event types.
   */
  lemma LegacyEventRouting(t: Legacy.RootEventType)
    ensures Legacy.IsChannelMessage(t) ==> GetEventEmitter(Legacy.RootEventMap(t)) == Ok(ChannelMessageEvent)
    ensures !Legacy.IsChannelMessage(t) ==>
      GetEventEmitter(Legacy.RootEventMap(t)) == Err("Unknown event type: " + Legacy.Name(t))
  {
    if Legacy.IsChannelMessage(t) {
      Legacy.ChannelMessageEntries(t);
      EmitterIsFirstMatch(Legacy.RootEventMap(t), 0);
    } else {
      Legacy.CommunityEntriesAreUnclassified(t);
      EmitterAgreesWithCategories(Legacy.RootEventMap(t));
    }
  }

  /** With the current event table, every value is routed to the category its entry names. */
  lemma CurrentEventRouting(t: Current.RootEventType)
    ensures GetEventEmitter(Current.RootEventMap(t).value) == Ok(Current.RootEventMap(t).category)
  {
    forall c ensures Current.RootEventMap(t).value in Values(c) <==> c == Current.RootEventMap(t).category {
      Current.MappedValueCategories(t, c);
    }
    UniqueCategoryIsChosen(Current.RootEventMap(t).value, Current.RootEventMap(t).category);
  }

  // ---------------------------------------------------------------------------------
  // Registry keys

  /**
   * `createEventKey`/`createJobKey`: the unit's name, ':', and its constructor's name.
   * A constructed unit always has a name, so the fallback name of the source is never used.
   */
  function UnitKey(name: string, className: string): string {
    name + ":" + className
  }

  /**
   * Names without ':' give equal keys exactly when name and class agree: two files
   * defining the same class under the same name share one entry, unlike the loader's
   * path keys.
   */
  lemma UnitKeyIdentifiesNameAndClass(n1: string, c1: string, n2: string, c2: string)
    requires ':' !in n1 && ':' !in n2
    ensures UnitKey(n1, c1) == UnitKey(n2, c2) <==> n1 == n2 && c1 == c2
  {
    FL.NamePathKeyInjective(n1, c1, n2, c2);
  }

  // ---------------------------------------------------------------------------------
  // Command dispatch

  /** A message sent through `channelMessages.create`. */
  datatype Reply = Reply(channelId: string, content: string)

  /** The replies an executor sends, all to the channel the command came from. */
  function Replies(channelId: string, contents: seq<string>): (r: seq<Reply>)
    ensures |r| == |contents| && forall i :: 0 <= i < |r| ==> r[i] == Reply(channelId, contents[i])
  {
    seq(|contents|, i requires 0 <= i < |contents| => Reply(channelId, contents[i]))
  }

  /** The reply to bad arguments; the usage hint always shows `!`, whatever the prefix. */
  function ArgumentErrorText(error: string, c: RootCommand): string {
    "\U{274C} " + error + "\n\nUsage: `!" + GetUsage(c) + "`"
  }

  /** The cooldown entry of a user for a command, under the name as invoked. */
  function CooldownKey(name: string, userId: string): string {
    name + ":" + userId
  }

  /** The last stamped time, with a missing entry counting as 0. */
  function LastExecution(cooldowns: map<string, int>, key: string): int {
    if key in cooldowns then cooldowns[key] else 0
  }

  /** The gate: less than `cooldown` seconds since the last stamp. */
  predicate OnCooldown(cooldowns: map<string, int>, key: string, now: int, cooldown: int) {
    now - LastExecution(cooldowns, key) < cooldown * 1000
  }

  /** What one call of `executeCommand` does: its result, the new cooldown map and the replies sent. */
  datatype DispatchResult = DispatchResult(ok: bool, cooldowns: map<string, int>, replies: seq<Reply>)

  /**
   * `executeCommand`, step by step: look the lower-cased name up; reply with the usage
   * on bad arguments; stop while on cooldown; stop when the validator rejects or throws;
   * stamp the time when the command has a cooldown; run the executor, whose replies go
   * out even if it then throws; succeed exactly when it does not throw.
   */
  function Dispatch(registry: OMap<string, Plugin<RootCommand>>, cooldowns: map<string, int>,
                    name: string, args: seq<string>, channelId: string, userId: string, now: int,
                    verdict: Verdict, outcome: ExecOutcome): DispatchResult
  {
    match registry.Get(ToLower(name))
    case None => DispatchResult(false, cooldowns, [])
    case Some(p) =>
      var parsed := ParseResult(p.unit, args);
      if !parsed.valid then
        DispatchResult(false, cooldowns, [Reply(channelId, ArgumentErrorText(parsed.error.value, p.unit))])
      else
        var key := CooldownKey(name, userId);
        if OnCooldown(cooldowns, key, now, p.unit.cooldown) || !Passes(p.hasValidator, verdict) then
          DispatchResult(false, cooldowns, [])
        else
          var stamped := if p.unit.cooldown > 0 then cooldowns[key := now] else cooldowns;
          DispatchResult(!outcome.throws, stamped, Replies(channelId, outcome.replies))
  }

  /** The call succeeds exactly when every gate lets it through and the executor does not throw. */
  lemma DispatchSucceedsExactly(registry: OMap<string, Plugin<RootCommand>>, cooldowns: map<string, int>,
                                name: string, args: seq<string>, channelId: string, userId: string, now: int,
                                verdict: Verdict, outcome: ExecOutcome)
    ensures var r := Dispatch(registry, cooldowns, name, args, channelId, userId, now, verdict, outcome);
      r.ok <==>
        && registry.Has(ToLower(name))
        && RequiredCount(registry.vals[ToLower(name)].unit.args) <= |args| <= |registry.vals[ToLower(name)].unit.args|
        && (forall i :: 0 <= i < |args| ==> Admits(registry.vals[ToLower(name)].unit.args[i], args[i]))
        && !OnCooldown(cooldowns, CooldownKey(name, userId), now, registry.vals[ToLower(name)].unit.cooldown)
        && Passes(registry.vals[ToLower(name)].hasValidator, verdict)
        && !outcome.throws
  {
  }

  /** An unknown name returns false, sends nothing and stamps nothing. */
  lemma UnknownCommandIsSilent(registry: OMap<string, Plugin<RootCommand>>, cooldowns: map<string, int>,
                               name: string, args: seq<string>, channelId: string, userId: string, now: int,
                               verdict: Verdict, outcome: ExecOutcome)
    requires !registry.Has(ToLower(name))
    ensures Dispatch(registry, cooldowns, name, args, channelId, userId, now, verdict, outcome) == DispatchResult(false, cooldowns, [])
  {
  }

  /** Bad arguments send exactly one reply, the error and the usage, and stamp nothing. */
  lemma BadArgumentsReplyOnce(registry: OMap<string, Plugin<RootCommand>>, cooldowns: map<string, int>,
                              name: string, args: seq<string>, channelId: string, userId: string, now: int,
                              verdict: Verdict, outcome: ExecOutcome)
    requires registry.Has(ToLower(name)) && !ParseResult(registry.vals[ToLower(name)].unit, args).valid
    ensures var c := registry.vals[ToLower(name)].unit;
      Dispatch(registry, cooldowns, name, args, channelId, userId, now, verdict, outcome)
        == DispatchResult(false, cooldowns, [Reply(channelId, ArgumentErrorText(ParseResult(c, args).error.value, c))])
  {
  }

  /**
   * The cooldown map changes only when the command is found, its arguments are valid, it
   * is off cooldown, its validator lets it through and it has a cooldown; then the entry
   * under the invoked name is stamped, whether or not the executor throws.
   */
  lemma StampedBeforeExecution(registry: OMap<string, Plugin<RootCommand>>, cooldowns: map<string, int>,
                               name: string, args: seq<string>, channelId: string, userId: string, now: int,
                               verdict: Verdict, outcome: ExecOutcome)
    ensures var r := Dispatch(registry, cooldowns, name, args, channelId, userId, now, verdict, outcome);
      var passed := registry.Has(ToLower(name)) && ParseResult(registry.vals[ToLower(name)].unit, args).valid
        && !OnCooldown(cooldowns, CooldownKey(name, userId), now, registry.vals[ToLower(name)].unit.cooldown)
        && Passes(registry.vals[ToLower(name)].hasValidator, verdict);
      && (passed && registry.vals[ToLower(name)].unit.cooldown > 0 ==> r.cooldowns == cooldowns[CooldownKey(name, userId) := now])
      && (!(passed && registry.vals[ToLower(name)].unit.cooldown > 0) ==> r.cooldowns == cooldowns)
      && (passed ==> r.replies == Replies(channelId, outcome.replies) && (r.ok <==> !outcome.throws))
  {
  }

  /** A call refused by the cooldown or by the validator sends nothing and stamps nothing. */
  lemma GateRefusesSilently(registry: OMap<string, Plugin<RootCommand>>, cooldowns: map<string, int>,
                            name: string, args: seq<string>, channelId: string, userId: string, now: int,
                            verdict: Verdict, outcome: ExecOutcome)
    requires registry.Has(ToLower(name)) && ParseResult(registry.vals[ToLower(name)].unit, args).valid
    requires OnCooldown(cooldowns, CooldownKey(name, userId), now, registry.vals[ToLower(name)].unit.cooldown)
      || !Passes(registry.vals[ToLower(name)].hasValidator, verdict)
    ensures Dispatch(registry, cooldowns, name, args, channelId, userId, now, verdict, outcome) == DispatchResult(false, cooldowns, [])
  {
  }

  /**
   * After a stamp at time `t`, the same name and user are refused for `cooldown` seconds
   * and let through from then on.
   */
  lemma CooldownWindow(registry: OMap<string, Plugin<RootCommand>>, cooldowns: map<string, int>,
                       name: string, args: seq<string>, channelId: string, userId: string,
                       t: int, t2: int, outcome: ExecOutcome, outcome2: ExecOutcome)
    requires registry.Has(ToLower(name)) && ParseResult(registry.vals[ToLower(name)].unit, args).valid
    requires registry.vals[ToLower(name)].unit.cooldown > 0
    requires !OnCooldown(cooldowns, CooldownKey(name, userId), t, registry.vals[ToLower(name)].unit.cooldown)
    ensures var c := registry.vals[ToLower(name)].unit.cooldown;
      var r1 := Dispatch(registry, cooldowns, name, args, channelId, userId, t, Accept, outcome);
      var r2 := Dispatch(registry, r1.cooldowns, name, args, channelId, userId, t2, Accept, outcome2);
      && (t2 - t < c * 1000 ==> r2 == DispatchResult(false, r1.cooldowns, []))
      && (t2 - t >= c * 1000 ==> r2.cooldowns == r1.cooldowns[CooldownKey(name, userId) := t2] && (r2.ok <==> !outcome2.throws))
  {
  }

  /**
   * Stamping under one invoked name leaves every other name's entry alone, so an alias and
   * the command's own name run separate cooldowns for the same user.
   */
  lemma AliasHasOwnCooldown(registry: OMap<string, Plugin<RootCommand>>, cooldowns: map<string, int>,
                            name: string, alias: string, args: seq<string>, channelId: string, userId: string,
                            now: int, verdict: Verdict, outcome: ExecOutcome)
    requires name != alias
    ensures var r := Dispatch(registry, cooldowns, alias, args, channelId, userId, now, verdict, outcome);
      LastExecution(r.cooldowns, CooldownKey(name, userId)) == LastExecution(cooldowns, CooldownKey(name, userId))
  {
    CooldownKeysDiffer(name, alias, userId);
  }

  lemma CooldownKeysDiffer(name: string, alias: string, userId: string)
    requires name != alias
    ensures CooldownKey(name, userId) != CooldownKey(alias, userId)
  {
    var k1, k2 := CooldownKey(name, userId), CooldownKey(alias, userId);
    if |name| == |alias| {
      assert k1[..|name|] == name && k2[..|alias|] == alias;
    }
  }

  /** The declared argument of the example `echo` command. */
  const EchoArg := CommandArg("message", "Message to echo", true, None)

  /** The example `echo` command: one required argument and a three-second cooldown. */
  function EchoCommand(): (c: RootCommand)
    ensures c.name == "echo" && c.usage.None? && c.args == [EchoArg] && c.cooldown == 3
  {
    NewCommand(CommandOptions("echo", "Echo back a message", None, Some([EchoArg]), None,
      Some(["echo Hello World!", "echo This is a test"]), Some("Fun"), Some(3)))
  }

  /** `!echo hello world` is refused: two tokens against one declared argument. */
  lemma EchoRefusesTwoWords(registry: OMap<string, Plugin<RootCommand>>, cooldowns: map<string, int>,
                            channelId: string, userId: string, now: int, verdict: Verdict, outcome: ExecOutcome, p: Plugin<RootCommand>)
    requires registry.Get("echo") == Some(p) && p.unit == EchoCommand()
    ensures Dispatch(registry, cooldowns, "echo", ["hello", "world"], channelId, userId, now, verdict, outcome)
      == DispatchResult(false, cooldowns, [Reply(channelId,
           "\U{274C} " + "Too many arguments. Expected at most 1, got 2" + "\n\nUsage: `!" + "echo <message>" + "`")])
  {
    var c := p.unit;
    EchoUsage(c);
    EchoTooMany(c);
    assert ToLower("echo") == "echo";
  }

  lemma EchoUsage(c: RootCommand)
    requires c.name == "echo" && c.usage.None? && c.args == [EchoArg]
    ensures GetUsage(c) == "echo <message>"
  {
    EchoPieces();
    UsageShape(c);
  }

  lemma EchoPieces()
    ensures Join(RenderArgs([EchoArg]), " ") == "<message>"
    ensures !IsSpace("echo"[0]) && !IsSpace("echo"[3])
    ensures "echo" + " " + "<message>" == "echo <message>"
  {
  }

  lemma EchoTooMany(c: RootCommand)
    requires c.args == [EchoArg]
    ensures ParseResult(c, ["hello", "world"])
      == ParsedArgs(false, Some("Too many arguments. Expected at most 1, got 2"), ["hello", "world"])
  {
    assert RequiredCount(c.args) == 1 by {
      assert c.args[..0] == [];
    }
    ParseTooMany(c, ["hello", "world"]);
    assert NatToString(1) == "1" && NatToString(2) == "2";
    assert TooManyMessage(1, 2) == "Too many arguments. Expected at most 1, got 2";
  }

  // ---------------------------------------------------------------------------------
  // Registry population

  /** The writes that store a command under each of its aliases, in order. */
  function AliasWrites(aliases: seq<string>, p: Plugin<RootCommand>): (ws: seq<(string, Plugin<RootCommand>)>)
    ensures |ws| == |aliases| && forall i :: 0 <= i < |ws| ==> ws[i] == (aliases[i], p)
  {
    seq(|aliases|, i requires 0 <= i < |aliases| => (aliases[i], p))
  }

  /** The writes for one loaded entry: under its key, then under each alias. */
  function EntryWrites(key: string, p: Plugin<RootCommand>): seq<(string, Plugin<RootCommand>)> {
    [(key, p)] + AliasWrites(p.unit.aliases, p)
  }

  /** The writes for the loaded entries `keys`, in map order. */
  function RegistryWrites(keys: seq<string>, vals: map<string, Plugin<RootCommand>>): seq<(string, Plugin<RootCommand>)>
    requires forall i :: 0 <= i < |keys| ==> keys[i] in vals
  {
    if keys == [] then []
    else RegistryWrites(keys[..|keys| - 1], vals) + EntryWrites(keys[|keys| - 1], vals[keys[|keys| - 1]])
  }

  /** The built-in help command as the registry stores it; it defines no validator. */
  function HelpPlugin(): Plugin<RootCommand> {
    Plugin(NewCommand(Help.HelpOptions()), "HelpCommand", false)
  }

  /** The writes for the help command: none when it is disabled. */
  function HelpWrites(disabled: bool): seq<(string, Plugin<RootCommand>)> {
    if disabled then [] else EntryWrites(HelpPlugin().unit.name, HelpPlugin())
  }

  /** Every write of the loaded entries stores an entry's command under its key or one of its aliases. */
  lemma {:induction false} RegistryWritesFromEntries(keys: seq<string>, vals: map<string, Plugin<RootCommand>>)
    requires forall i :: 0 <= i < |keys| ==> keys[i] in vals
    ensures forall w :: w in RegistryWrites(keys, vals) ==>
      exists j :: 0 <= j < |keys| && w.1 == vals[keys[j]] && (w.0 == keys[j] || w.0 in vals[keys[j]].unit.aliases)
    decreases |keys|
  {
    if keys != [] {
      var init := keys[..|keys| - 1];
      var last := |keys| - 1;
      RegistryWritesFromEntries(init, vals);
      forall w | w in RegistryWrites(keys, vals)
        ensures exists j :: 0 <= j < |keys| && w.1 == vals[keys[j]] && (w.0 == keys[j] || w.0 in vals[keys[j]].unit.aliases)
      {
        if w in RegistryWrites(init, vals) {
          var j :| 0 <= j < |init| && w.1 == vals[init[j]] && (w.0 == init[j] || w.0 in vals[init[j]].unit.aliases);
          assert keys[j] == init[j];
        } else {
          var ew := EntryWrites(keys[last], vals[keys[last]]);
          assert w in ew;
          var i :| 0 <= i < |ew| && ew[i] == w;
          if i > 0 {
            assert w == (vals[keys[last]].unit.aliases[i - 1], vals[keys[last]]);
          }
        }
      }
    }
  }

  /** Every loaded key and every alias of its command is written. */
  lemma {:induction false} EntriesAreWritten(keys: seq<string>, vals: map<string, Plugin<RootCommand>>, j: nat)
    requires forall i :: 0 <= i < |keys| ==> keys[i] in vals
    requires j < |keys|
    ensures keys[j] in WrittenKeys(RegistryWrites(keys, vals))
    ensures forall a :: a in vals[keys[j]].unit.aliases ==> a in WrittenKeys(RegistryWrites(keys, vals))
    decreases |keys|
  {
    var ws := RegistryWrites(keys, vals);
    if j < |keys| - 1 {
      EntriesAreWritten(keys[..|keys| - 1], vals, j);
      var w0 := RegistryWrites(keys[..|keys| - 1], vals);
      forall k | k in WrittenKeys(w0) ensures k in WrittenKeys(ws) {
        var i :| 0 <= i < |w0| && WrittenKeys(w0)[i] == k;
        assert ws[i] == w0[i];
      }
    } else {
      var ew := EntryWrites(keys[j], vals[keys[j]]);
      var off := |ws| - |ew|;
      assert ws[off] == (keys[j], vals[keys[j]]);
      forall a | a in vals[keys[j]].unit.aliases ensures a in WrittenKeys(ws) {
        var i :| 0 <= i < |vals[keys[j]].unit.aliases| && vals[keys[j]].unit.aliases[i] == a;
        assert ws[off + 1 + i] == ew[1 + i];
      }
    }
  }

  /** After registration every loaded name and every alias of a loaded command resolves. */
  lemma LoadedKeysResolve(m: OMap<string, Plugin<RootCommand>>, keys: seq<string>,
                          vals: map<string, Plugin<RootCommand>>, disabled: bool, j: nat, k: string)
    requires forall i :: 0 <= i < |keys| ==> keys[i] in vals
    requires j < |keys| && (k == keys[j] || k in vals[keys[j]].unit.aliases)
    ensures PutAll(m, RegistryWrites(keys, vals) + HelpWrites(disabled)).Has(k)
  {
    var rw := RegistryWrites(keys, vals);
    var ws := rw + HelpWrites(disabled);
    EntriesAreWritten(keys, vals, j);
    var i :| 0 <= i < |rw| && WrittenKeys(rw)[i] == k;
    assert WrittenKeys(ws)[i] == k;
    WrittenKeyHasLastWrite(ws, k);
    LastWriteWins(m, ws, k);
  }

  /**
   * After registration each key holds the command last written to it: a loaded command
   * filed under that key or one of its aliases, the help command, or what the key held
   * before.
   */
  lemma ResolvedKeysComeFromWrites(m: OMap<string, Plugin<RootCommand>>, keys: seq<string>,
                                   vals: map<string, Plugin<RootCommand>>, disabled: bool, k: string)
    requires forall i :: 0 <= i < |keys| ==> keys[i] in vals
    ensures var r := PutAll(m, RegistryWrites(keys, vals) + HelpWrites(disabled));
      r.Has(k) ==>
        || (exists j :: 0 <= j < |keys| && r.vals[k] == vals[keys[j]] && (k == keys[j] || k in vals[keys[j]].unit.aliases))
        || (!disabled && r.vals[k] == HelpPlugin())
        || (m.Has(k) && r.vals[k] == m.vals[k])
  {
    var ws := RegistryWrites(keys, vals) + HelpWrites(disabled);
    LastWriteWins(m, ws, k);
    LastWriteIsWritten(ws, k);
    if LastWrite(ws, k).Some? {
      var w := (k, LastWrite(ws, k).value);
      if w in RegistryWrites(keys, vals) {
        RegistryWritesFromEntries(keys, vals);
      } else {
        assert w in HelpWrites(disabled);
        EntryWritesStore(HelpPlugin().unit.name, HelpPlugin());
      }
    }
  }

  lemma EntryWritesStore(key: string, p: Plugin<RootCommand>)
    ensures forall w :: w in EntryWrites(key, p) ==> w.1 == p
  {
  }

  /** Unless disabled, `help`, `h` and `?` resolve to the help command, whatever was loaded. */
  lemma HelpWinsCollisions(m: OMap<string, Plugin<RootCommand>>, ws: seq<(string, Plugin<RootCommand>)>)
    ensures var r := PutAll(m, ws + HelpWrites(false));
      r.Get("help") == Some(HelpPlugin()) && r.Get("h") == Some(HelpPlugin()) && r.Get("?") == Some(HelpPlugin())
  {
    Help.HelpMetadata();
    var hw := HelpWrites(false);
    assert hw == [("help", HelpPlugin()), ("h", HelpPlugin()), ("?", HelpPlugin())];
    PutAllAppend(m, ws, hw);
    LastWriteWins(PutAll(m, ws), hw, "help");
    LastWriteWins(PutAll(m, ws), hw, "h");
    LastWriteWins(PutAll(m, ws), hw, "?");
  }

  lemma RegistryWritesStep(keys: seq<string>, vals: map<string, Plugin<RootCommand>>, i: nat)
    requires forall j :: 0 <= j < |keys| ==> keys[j] in vals
    requires i < |keys|
    ensures RegistryWrites(keys[..i + 1], vals) == RegistryWrites(keys[..i], vals) + EntryWrites(keys[i], vals[keys[i]])
  {
    assert keys[..i + 1][..i] == keys[..i];
  }

  // ---------------------------------------------------------------------------------
  // Event and job registration

  /** An `on` or `once` listener attached to a category's emitter for one SDK value. */
  datatype Subscription = Subscription(category: Category, value: string, once: bool, event: Plugin<RootEvent>)

  /** What a pass over the loaded events does: the map writes, the listeners, and the error that stops it. */
  datatype EventPass = EventPass(writes: seq<(string, Plugin<RootEvent>)>, subscriptions: seq<Subscription>, error: Option<string>)

  /**
   * `loadEvents` over the loaded events in order: a disabled event is skipped; an enabled
   * one is stored under its key and then attached, and an unknown SDK value stops the
   * pass with the error, after the event was stored.
   */
  function EventsPass(es: seq<Plugin<RootEvent>>): EventPass {
    if es == [] then EventPass([], [], None)
    else EventStep(EventsPass(es[..|es| - 1]), es[|es| - 1])
  }

  /** One iteration of `loadEvents`. */
  function EventStep(r: EventPass, e: Plugin<RootEvent>): EventPass {
    if r.error.Some? || !e.unit.enabled then r
    else
      var writes := r.writes + [(UnitKey(e.unit.name, e.className), e)];
      match GetEventEmitter(e.unit.sdkEvent)
      case Err(message) => EventPass(writes, r.subscriptions, Some(message))
      case Ok(c) => EventPass(writes, r.subscriptions + [Subscription(c, e.unit.sdkEvent, e.unit.once, e)], None)
  }

  /**
   * Only enabled events are stored, each under its name and class; each listener is
   * attached once or permanently as the event asks, for its SDK value, on the emitter
   * that routing chooses.
   */
  lemma {:induction false} EventsPassSound(es: seq<Plugin<RootEvent>>)
    ensures forall w :: w in EventsPass(es).writes ==>
      w.1 in es && w.1.unit.enabled && w.0 == UnitKey(w.1.unit.name, w.1.className)
    ensures forall s :: s in EventsPass(es).subscriptions ==>
      && s.event in es && s.event.unit.enabled && s.value == s.event.unit.sdkEvent
      && s.once == s.event.unit.once && GetEventEmitter(s.value) == Ok(s.category)
    decreases |es|
  {
    if es != [] {
      EventsPassSound(es[..|es| - 1]);
      assert forall x :: x in es[..|es| - 1] ==> x in es;
    }
  }

  /**
   * An event the pass can attach: disabled, or carrying a value that routing accepts,
   * which by `GetEventEmitter` is a value some category holds.
   */
  predicate Classified(e: Plugin<RootEvent>) {
    !e.unit.enabled || GetEventEmitter(e.unit.sdkEvent).Ok?
  }

  /** The pass ends in an error exactly when some enabled event carries a value that no category holds. */
  lemma EventsPassFailsExactly(es: seq<Plugin<RootEvent>>)
    ensures EventsPass(es).error.None? <==> forall i :: 0 <= i < |es| ==> Classified(es[i])
  {
    EventsPassFailsOnUnclassified(es);
    AllClassifiedEveryIndex(es);
  }

  /** Every event of `es` is classified, stated from the end as the pass runs. */
  predicate AllClassified(es: seq<Plugin<RootEvent>>)
    decreases |es|
  {
    es == [] || (AllClassified(es[..|es| - 1]) && Classified(es[|es| - 1]))
  }

  lemma {:induction false} EventsPassFailsOnUnclassified(es: seq<Plugin<RootEvent>>)
    ensures EventsPass(es).error.None? <==> AllClassified(es)
    decreases |es|
  {
    if es != [] {
      EventsPassFailsOnUnclassified(es[..|es| - 1]);
      EventsPassErrorStep(es);
    }
  }

  lemma {:induction false} AllClassifiedEveryIndex(es: seq<Plugin<RootEvent>>)
    ensures AllClassified(es) <==> forall i :: 0 <= i < |es| ==> Classified(es[i])
    decreases |es|
  {
    if es != [] {
      var init := es[..|es| - 1];
      AllClassifiedEveryIndex(init);
      assert forall i :: 0 <= i < |init| ==> es[i] == init[i];
    }
  }

  lemma EventsPassErrorStep(es: seq<Plugin<RootEvent>>)
    requires es != []
    ensures EventsPass(es).error.None? <==> EventsPass(es[..|es| - 1]).error.None? && Classified(es[|es| - 1])
  {
  }

  /** The error names the value of an enabled event of the pass. */
  lemma {:induction false} EventsPassErrorNamesValue(es: seq<Plugin<RootEvent>>)
    ensures EventsPass(es).error.Some? ==>
      exists e :: e in es && e.unit.enabled && EventsPass(es).error == Some("Unknown event type: " + e.unit.sdkEvent)
    decreases |es|
  {
    if es != [] {
      var init := es[..|es| - 1];
      EventsPassErrorNamesValue(init);
      if EventsPass(init).error.Some? {
        var e :| e in init && e.unit.enabled && EventsPass(init).error == Some("Unknown event type: " + e.unit.sdkEvent);
        assert e in es;
      } else if EventsPass(es).error.Some? {
        assert es[|es| - 1] in es;
      }
    }
  }

  /**
   * An enabled event built for `CommunityMemberJoined` or `CommunityMemberLeft` makes the
   * pass fail: the older table gives it a value no category holds.
   */
  lemma CommunityMemberEventFails(es: seq<Plugin<RootEvent>>, i: nat, o: EventOptions)
    requires i < |es| && es[i].unit == NewEvent(o) && es[i].unit.enabled
    requires !Legacy.IsChannelMessage(o.event)
    ensures EventsPass(es).error.Some?
  {
    Legacy.CommunityEntriesAreUnclassified(o.event);
    EventsPassFailsExactly(es);
  }

  lemma EventsPassStep(es: seq<Plugin<RootEvent>>, i: nat)
    requires i < |es|
    ensures EventsPass(es[..i + 1]) == EventStep(EventsPass(es[..i]), es[i])
  {
    assert es[..i + 1][..i] == es[..i];
  }

  /** Once the pass has failed, the remaining events change nothing. */
  lemma {:induction false} EventsPassStops(es: seq<Plugin<RootEvent>>, i: nat)
    requires i <= |es| && EventsPass(es[..i]).error.Some?
    ensures EventsPass(es) == EventsPass(es[..i])
    decreases |es| - i
  {
    if i < |es| {
      EventsPassStep(es, i);
      EventsPassStops(es, i + 1);
    } else {
      assert es[..i] == es;
    }
  }

  /** The registration state `loadEvents` updates: the events map, the listeners and the error. */
  datatype EventState = EventState(events: OMap<string, Plugin<RootEvent>>, subscriptions: seq<Subscription>, error: Option<string>)

  /** One iteration of `loadEvents` on the registration state. */
  function EventApply(st: EventState, e: Plugin<RootEvent>): EventState {
    if st.error.Some? || !e.unit.enabled then st
    else
      var events := st.events.Put(UnitKey(e.unit.name, e.className), e);
      match GetEventEmitter(e.unit.sdkEvent)
      case Err(message) => EventState(events, st.subscriptions, Some(message))
      case Ok(c) => EventState(events, st.subscriptions + [Subscription(c, e.unit.sdkEvent, e.unit.once, e)], None)
  }

  /** The registration state after the pass over `es`, from the map `m0` and the listeners `s0`. */
  function Tracked(m0: OMap<string, Plugin<RootEvent>>, s0: seq<Subscription>, es: seq<Plugin<RootEvent>>): EventState {
    var r := EventsPass(es);
    EventState(PutAll(m0, r.writes), s0 + r.subscriptions, r.error)
  }

  /** Applying the next event to the state after a prefix gives the state after one more event. */
  lemma EventApplyTracksPass(m0: OMap<string, Plugin<RootEvent>>, s0: seq<Subscription>, es: seq<Plugin<RootEvent>>, i: nat)
    requires i < |es|
    ensures EventApply(Tracked(m0, s0, es[..i]), es[i]) == Tracked(m0, s0, es[..i + 1])
  {
    var e := es[i];
    var r := EventsPass(es[..i]);
    EventsPassStep(es, i);
    PutAllSnoc(m0, r.writes, (UnitKey(e.unit.name, e.className), e));
    match GetEventEmitter(e.unit.sdkEvent)
    case Err(_) =>
    case Ok(c) =>
      assert s0 + (r.subscriptions + [Subscription(c, e.unit.sdkEvent, e.unit.once, e)])
        == (s0 + r.subscriptions) + [Subscription(c, e.unit.sdkEvent, e.unit.once, e)];
  }

  /** A `jobScheduler.create` request. */
  datatype ScheduleRequest = ScheduleRequest(tag: string, resourceId: string, start: int, jobInterval: JobInterval, end: Option<int>)

  function ScheduleOf(j: RootJob): ScheduleRequest {
    ScheduleRequest(j.tag, j.resourceId, j.start, j.jobInterval, j.end)
  }

  /** What a pass over the loaded jobs does: the map writes and the schedule requests. */
  datatype JobPass = JobPass(writes: seq<(string, Plugin<RootJob>)>, schedules: seq<ScheduleRequest>)

  /** `loadJobs` over the loaded jobs in order: a disabled job is skipped; an enabled one is stored, then scheduled. */
  function JobsPass(js: seq<Plugin<RootJob>>): JobPass {
    if js == [] then JobPass([], [])
    else
      var r := JobsPass(js[..|js| - 1]);
      var j := js[|js| - 1];
      if !j.unit.enabled then r
      else JobPass(r.writes + [(UnitKey(j.unit.name, j.className), j)], r.schedules + [ScheduleOf(j.unit)])
  }

  /** Only enabled jobs are stored, each under its name and class, and each stored job is scheduled with its own fields. */
  lemma {:induction false} JobsPassSound(js: seq<Plugin<RootJob>>)
    ensures |JobsPass(js).writes| == |JobsPass(js).schedules|
    ensures forall i :: 0 <= i < |JobsPass(js).writes| ==>
      var w := JobsPass(js).writes[i];
      && w.1 in js && w.1.unit.enabled && w.0 == UnitKey(w.1.unit.name, w.1.className)
      && JobsPass(js).schedules[i] == ScheduleOf(w.1.unit)
    ensures forall j :: j in js && j.unit.enabled ==> (UnitKey(j.unit.name, j.className), j) in JobsPass(js).writes
    decreases |js|
  {
    if js != [] {
      JobsPassSound(js[..|js| - 1]);
      assert forall x :: x in js[..|js| - 1] ==> x in js;
      assert forall x :: x in js ==> x in js[..|js| - 1] || x == js[|js| - 1];
    }
  }

  lemma JobsPassStep(js: seq<Plugin<RootJob>>, i: nat)
    requires i < |js|
    ensures JobsPass(js[..i + 1]) == (
      var r := JobsPass(js[..i]);
      var j := js[i];
      if !j.unit.enabled then r
      else JobPass(r.writes + [(UnitKey(j.unit.name, j.className), j)], r.schedules + [ScheduleOf(j.unit)]))
  {
    assert js[..i + 1][..i] == js[..i];
  }

  /** A disabled job changes nothing. */
  lemma JobsPassSkips(js: seq<Plugin<RootJob>>, i: nat)
    requires i < |js| && !js[i].unit.enabled
    ensures JobsPass(js[..i + 1]) == JobsPass(js[..i])
  {
    JobsPassStep(js, i);
  }

  /** An enabled job is stored under its key and scheduled. */
  lemma JobsPassStores(m0: OMap<string, Plugin<RootJob>>, js: seq<Plugin<RootJob>>, i: nat)
    requires i < |js| && js[i].unit.enabled
    ensures var r, j, n := JobsPass(js[..i]), js[i], JobsPass(js[..i + 1]);
      && PutAll(m0, n.writes) == PutAll(m0, r.writes).Put(UnitKey(j.unit.name, j.className), j)
      && n.schedules == r.schedules + [ScheduleOf(j.unit)]
  {
    var j := js[i];
    JobsPassStep(js, i);
    PutAllSnoc(m0, JobsPass(js[..i]).writes, (UnitKey(j.unit.name, j.className), j));
  }

  /** The position of the first job with the fired tag and resource. */
  function FirstJob(js: seq<Plugin<RootJob>>, tag: string, resourceId: string): (r: Option<nat>)
    ensures r.None? <==> forall i :: 0 <= i < |js| ==> !(js[i].unit.tag == tag && js[i].unit.resourceId == resourceId)
    ensures r.Some? ==> r.value < |js| && js[r.value].unit.tag == tag && js[r.value].unit.resourceId == resourceId
    ensures r.Some? ==> forall i :: 0 <= i < r.value ==> !(js[i].unit.tag == tag && js[i].unit.resourceId == resourceId)
  {
    if js == [] then None
    else if js[0].unit.tag == tag && js[0].unit.resourceId == resourceId then Some(0)
    else match FirstJob(js[1..], tag, resourceId)
      case None => None
      case Some(i) => Some(i + 1)
  }

  /** `Array.prototype.find` over the jobs: the first with the fired tag and resource. */
  method FindJob(js: seq<Plugin<RootJob>>, tag: string, resourceId: string) returns (r: Option<nat>)
    ensures r == FirstJob(js, tag, resourceId)
  {
    var i := 0;
    while i < |js|
      invariant 0 <= i <= |js|
      invariant forall k :: 0 <= k < i ==> !(js[k].unit.tag == tag && js[k].unit.resourceId == resourceId)
    {
      if js[i].unit.tag == tag && js[i].unit.resourceId == resourceId {
        return Some(i);
      }
      i := i + 1;
    }
    return None;
  }

  // ---------------------------------------------------------------------------------
  // Startup options

  /** The constructor options; `loader` is the object spread over the defaults, absent fields as `None`. */
  datatype AppOptions = AppOptions(
    baseDir: Option<string>,
    commandsFolderName: Option<string>,
    eventsFolderName: Option<string>,
    jobsFolderName: Option<string>,
    loader: FL.LoaderOptions,
    cmdPrefix: Option<string>,
    disableHelpCommand: Option<bool>)

  /**
   * What the constructor reads from its process: the working directory, whether the
   * running file lies under a `dist` path, which paths exist, and the library's own root,
   * where the loader falls back when it receives no base directory.
   */
  datatype Startup = Startup(cwd: string, runningFromDist: bool, existing: set<string>, libraryRootDir: string)

  /**
   * The base directory: a non-empty given one, otherwise `dist` under the working directory
   * when running from a `dist` build and it exists, else `src` if it exists, else `dist` if
   * it exists, else `src`.
   */
  function ChooseBaseDir(given: Option<string>, env: Startup): (r: string)
    ensures given.Some? && given.value != "" ==> r == given.value
    ensures !(given.Some? && given.value != "") ==>
      && (r == PathJoin(env.cwd, "dist") || r == PathJoin(env.cwd, "src"))
      && (PathJoin(env.cwd, "dist") in env.existing || PathJoin(env.cwd, "src") in env.existing ==> r in env.existing)
      && (env.runningFromDist && PathJoin(env.cwd, "dist") in env.existing ==> r == PathJoin(env.cwd, "dist"))
      && (!env.runningFromDist && PathJoin(env.cwd, "src") in env.existing ==> r == PathJoin(env.cwd, "src"))
  {
    if given.Some? && given.value != "" then given.value
    else
      var dist := PathJoin(env.cwd, "dist");
      var src := PathJoin(env.cwd, "src");
      if env.runningFromDist && dist in env.existing then dist
      else if src in env.existing then src
      else if dist in env.existing then dist
      else src
  }

  function PathJoin(dir: string, name: string): string {
    FL.PathJoin(dir, name)
  }

  /** `{ ...defaults, ...overrides }` for one field. */
  function Overlay<T>(override: Option<T>, default: T): T {
    if override.Some? then override.value else default
  }

  /**
   * The loader's options: the base directory, each folder name (the top-level option or
   * the kind's plural) and each directory (that folder under the base directory), with
   * every field the `loader` option sets taking its place.
   */
  function MergedLoaderOptions(o: AppOptions, baseDir: string): FL.LoaderOptions {
    var cf := o.commandsFolderName.GetOr("commands");
    var ef := o.eventsFolderName.GetOr("events");
    var jf := o.jobsFolderName.GetOr("jobs");
    var l := o.loader;
    FL.LoaderOptions(
      Some(Overlay(l.baseDir, baseDir)),
      Some(Overlay(l.commandsDir, [PathJoin(baseDir, cf)])),
      Some(Overlay(l.eventsDir, [PathJoin(baseDir, ef)])),
      Some(Overlay(l.jobsDir, [PathJoin(baseDir, jf)])),
      Some(Overlay(l.commandsFolderName, cf)),
      Some(Overlay(l.eventsFolderName, ef)),
      Some(Overlay(l.jobsFolderName, jf)),
      l.extensions)
  }

  /** The `loader` option with no field set. */
  const NoOverrides := FL.LoaderOptions(None, None, None, None, None, None, None, None)

  /**
   * Without `loader` overrides, the merged options configure the loader exactly as the
   * loader's own defaults would from the base directory and the top-level folder names:
   * the directories the server app spells out are the ones the loader would derive.
   */
  lemma MergedAgreesWithLoaderDefaults(o: AppOptions, baseDir: string, lib: string, fl: FL.FileLoader)
    requires o.loader == NoOverrides && baseDir != ""
    ensures fl.Configured(MergedLoaderOptions(o, baseDir), lib) <==>
      fl.Configured(FL.LoaderOptions(Some(baseDir), None, None, None,
        Some(o.commandsFolderName.GetOr("commands")), Some(o.eventsFolderName.GetOr("events")),
        Some(o.jobsFolderName.GetOr("jobs")), None), lib)
  {
  }

  /**
   * A folder name set only inside `loader` renames the folder that discovery searches for,
   * but the configured directory stays under the top-level (or default) folder name.
   */
  lemma LoaderFolderNameDoesNotMoveDefaultDir(o: AppOptions, baseDir: string, lib: string, fl: FL.FileLoader, f: string)
    requires o.loader.commandsFolderName == Some(f) && o.loader.commandsDir.None? && o.loader.baseDir.None?
    requires baseDir != ""
    requires fl.Configured(MergedLoaderOptions(o, baseDir), lib)
    ensures fl.commandsFolderName == f
    ensures fl.commandsDirs == FL.NormalizeDirs([PathJoin(baseDir, o.commandsFolderName.GetOr("commands"))])
  {
  }

  // ---------------------------------------------------------------------------------
  // The server app

  class RDXServerApp {
    const fileLoader: FL.FileLoader
    /** The command registry; the help command holds the same map. */
    const commands: Help.Registry
    var events: OMap<string, Plugin<RootEvent>>
    var jobs: OMap<string, Plugin<RootJob>>
    var commandCooldowns: map<string, int>
    const cmdPrefix: string
    const disableHelpCommand: bool
    var jobListenerRegistered: bool

    // What the app has asked of the platform, in order.
    /** Listeners attached to category emitters. */
    var subscriptions: seq<Subscription>
    /** Requests to the job scheduler. */
    var schedules: seq<ScheduleRequest>
    /** Listeners attached to the scheduler's job event. */
    var jobListeners: nat
    /** Whether the chat message handler is attached. */
    var listening: bool
    /** Messages sent to channels. */
    var outbox: seq<Reply>

    /** The maps are well formed, and at most one job listener exists, the one the flag records. */
    ghost predicate Valid()
      reads this`events, this`jobs, this`jobListenerRegistered, this`jobListeners, commands, fileLoader
    {
      && commands.contents.Valid() && events.Valid() && jobs.Valid() && fileLoader.Valid()
      && jobListeners == (if jobListenerRegistered then 1 else 0)
    }

    /**
     * The help flag defaults to false and the prefix to `!`; the loader is built from the
     * merged options over the chosen base directory; nothing is registered yet.
     */
    constructor(options: AppOptions, env: Startup)
      ensures Valid() && fresh(fileLoader) && fresh(commands)
      ensures fileLoader.Configured(MergedLoaderOptions(options, ChooseBaseDir(options.baseDir, env)), env.libraryRootDir)
      ensures !fileLoader.eventsDirsResolved && !fileLoader.jobsDirsResolved
      ensures fileLoader.commands == Empty() && fileLoader.events == Empty() && fileLoader.jobs == Empty()
      ensures disableHelpCommand == options.disableHelpCommand.GetOr(false)
      ensures cmdPrefix == options.cmdPrefix.GetOr("!")
      ensures commands.contents == Empty() && events == Empty() && jobs == Empty() && commandCooldowns == map[]
      ensures !jobListenerRegistered && !listening
      ensures subscriptions == [] && schedules == [] && jobListeners == 0 && outbox == []
    {
      disableHelpCommand := options.disableHelpCommand.GetOr(false);
      var baseDir := ChooseBaseDir(options.baseDir, env);
      fileLoader := new FL.FileLoader(MergedLoaderOptions(options, baseDir), env.libraryRootDir);
      cmdPrefix := options.cmdPrefix.GetOr("!");
      commands := new MapObject();
      events := Empty();
      jobs := Empty();
      commandCooldowns := map[];
      jobListenerRegistered := false;
      subscriptions := [];
      schedules := [];
      jobListeners := 0;
      listening := false;
      outbox := [];
    }

    /**
     * `initialize`, after the lifecycle has started: commands, events and jobs are loaded
     * and registered, then the message handler is attached. An event with an unknown SDK
     * value aborts it, and the process exits, before any job is loaded.
     */
    method Initialize(fs: FL.FileSystem, loadCommand: string -> FL.ModuleLoad<RootCommand>,
                      loadEvent: string -> FL.ModuleLoad<RootEvent>, loadJob: string -> FL.ModuleLoad<RootJob>)
      returns (exited: bool, ghost loadedCommands: OMap<string, Plugin<RootCommand>>, ghost loadedEvents: seq<Plugin<RootEvent>>)
      requires Valid()
      modifies this`events, this`subscriptions, this`jobs, this`schedules, this`jobListenerRegistered
      modifies this`jobListeners, this`listening, commands, fileLoader
      ensures Valid() && loadedCommands.Valid()
      ensures commands.contents == PutAll(old(commands.contents),
        RegistryWrites(loadedCommands.keys, loadedCommands.vals) + HelpWrites(disableHelpCommand))
      ensures var t := Tracked(old(events), old(subscriptions), loadedEvents);
        events == t.events && subscriptions == t.subscriptions && (exited <==> t.error.Some?)
      ensures loadedCommands == fileLoader.commands && loadedEvents == fileLoader.events.Values()
      ensures fileLoader.commands == PutAll(old(fileLoader.commands),
        FL.DirWrites(fs, fileLoader.extensions, fileLoader.CommandDirs(fs), loadCommand, FL.CommandKey))
      ensures fileLoader.eventsDirs == old(fileLoader.EventDirs(fs))
      ensures fileLoader.events == PutAll(old(fileLoader.events),
        FL.DirWrites(fs, fileLoader.extensions, fileLoader.eventsDirs, loadEvent, FL.EventKey))
      ensures exited ==> fileLoader.jobs == old(fileLoader.jobs) && fileLoader.jobsDirs == old(fileLoader.jobsDirs)
      ensures exited ==> jobListenerRegistered == old(jobListenerRegistered) && jobListeners == old(jobListeners)
      ensures !exited ==> fileLoader.jobsDirs == old(fileLoader.JobDirs(fs)) && fileLoader.jobs == PutAll(old(fileLoader.jobs),
        FL.DirWrites(fs, fileLoader.extensions, fileLoader.jobsDirs, loadJob, FL.JobKey))
      ensures exited ==> jobs == old(jobs) && schedules == old(schedules) && listening == old(listening)
      ensures !exited ==> jobListenerRegistered && jobListeners == 1 && listening
      ensures !exited ==> var r := JobsPass(fileLoader.jobs.Values());
        jobs == PutAll(old(jobs), r.writes) && schedules == old(schedules) + r.schedules
    {
      loadedCommands := LoadCommands(fs, loadCommand);
      exited, loadedEvents := LoadEventsAndJobs(fs, loadEvent, loadJob);
    }

    /**
     * The rest of `initialize`'s `try` block: events, then jobs and the message handler;
     * the error of an unknown event type ends it before any job is loaded.
     */
    method LoadEventsAndJobs(fs: FL.FileSystem, loadEvent: string -> FL.ModuleLoad<RootEvent>, loadJob: string -> FL.ModuleLoad<RootJob>)
      returns (exited: bool, ghost loadedEvents: seq<Plugin<RootEvent>>)
      requires fileLoader.Valid() && events.Valid() && jobs.Valid() && jobListeners == (if jobListenerRegistered then 1 else 0)
      modifies this`events, this`subscriptions, this`jobs, this`schedules, this`jobListenerRegistered
      modifies this`jobListeners, this`listening, fileLoader
      ensures fileLoader.Valid() && events.Valid() && jobs.Valid() && jobListeners == (if jobListenerRegistered then 1 else 0)
      ensures var t := Tracked(old(events), old(subscriptions), loadedEvents);
        events == t.events && subscriptions == t.subscriptions && (exited <==> t.error.Some?)
      ensures loadedEvents == fileLoader.events.Values() && fileLoader.commands == old(fileLoader.commands)
      ensures fileLoader.eventsDirs == old(fileLoader.EventDirs(fs))
      ensures fileLoader.events == PutAll(old(fileLoader.events),
        FL.DirWrites(fs, fileLoader.extensions, fileLoader.eventsDirs, loadEvent, FL.EventKey))
      ensures exited ==> fileLoader.jobs == old(fileLoader.jobs) && fileLoader.jobsDirs == old(fileLoader.jobsDirs)
      ensures exited ==> jobListenerRegistered == old(jobListenerRegistered) && jobListeners == old(jobListeners)
      ensures !exited ==> fileLoader.jobsDirs == old(fileLoader.JobDirs(fs)) && fileLoader.jobs == PutAll(old(fileLoader.jobs),
        FL.DirWrites(fs, fileLoader.extensions, fileLoader.jobsDirs, loadJob, FL.JobKey))
      ensures exited ==> jobs == old(jobs) && schedules == old(schedules) && listening == old(listening)
      ensures !exited ==> jobListenerRegistered && jobListeners == 1 && listening
      ensures !exited ==> var r := JobsPass(fileLoader.jobs.Values());
        jobs == PutAll(old(jobs), r.writes) && schedules == old(schedules) + r.schedules
    {
      var error;
      error, loadedEvents := LoadEvents(fs, loadEvent);
      if error.Some? {
        return true, loadedEvents;
      }
      ghost var loadedJobs := LoadJobs(fs, loadJob);
      SetupMessageHandler();
      exited := false;
    }

    /** `loadCommands`: the loader's commands, registered. */
    method LoadCommands(fs: FL.FileSystem, load: string -> FL.ModuleLoad<RootCommand>)
      returns (ghost loaded: OMap<string, Plugin<RootCommand>>)
      requires fileLoader.Valid() && commands.contents.Valid()
      modifies fileLoader, commands
      ensures fileLoader.Valid() && commands.contents.Valid()
      ensures loaded == fileLoader.commands && loaded.Valid()
      ensures fileLoader.commands == PutAll(old(fileLoader.commands),
        FL.DirWrites(fs, fileLoader.extensions, fileLoader.CommandDirs(fs), load, FL.CommandKey))
      ensures fileLoader.events == old(fileLoader.events) && fileLoader.jobs == old(fileLoader.jobs)
      ensures fileLoader.eventsDirs == old(fileLoader.eventsDirs) && fileLoader.eventsDirsResolved == old(fileLoader.eventsDirsResolved)
      ensures fileLoader.jobsDirs == old(fileLoader.jobsDirs) && fileLoader.jobsDirsResolved == old(fileLoader.jobsDirsResolved)
      ensures commands.contents == PutAll(old(commands.contents),
        RegistryWrites(loaded.keys, loaded.vals) + HelpWrites(disableHelpCommand))
    {
      ghost var dirs;
      var cs;
      cs, dirs := fileLoader.LoadCommands(fs, load);
      loaded := cs;
      RegisterCommands(cs);
    }

    /** `loadEvents`: the loader's events, registered; the error is what the source throws. */
    method LoadEvents(fs: FL.FileSystem, load: string -> FL.ModuleLoad<RootEvent>)
      returns (error: Option<string>, ghost loaded: seq<Plugin<RootEvent>>)
      requires fileLoader.Valid() && events.Valid()
      modifies fileLoader, this`events, this`subscriptions
      ensures fileLoader.Valid() && events.Valid()
      ensures fileLoader.events.Valid() && loaded == fileLoader.events.Values()
      ensures fileLoader.eventsDirs == old(fileLoader.EventDirs(fs)) && fileLoader.eventsDirsResolved
      ensures fileLoader.events == PutAll(old(fileLoader.events),
        FL.DirWrites(fs, fileLoader.extensions, fileLoader.eventsDirs, load, FL.EventKey))
      ensures fileLoader.commands == old(fileLoader.commands) && fileLoader.jobs == old(fileLoader.jobs)
      ensures fileLoader.jobsDirs == old(fileLoader.jobsDirs) && fileLoader.jobsDirsResolved == old(fileLoader.jobsDirsResolved)
      ensures EventState(events, subscriptions, error) == Tracked(old(events), old(subscriptions), loaded)
    {
      ghost var dirs;
      var es;
      es, dirs := fileLoader.LoadEvents(fs, load);
      loaded := es.Values();
      error := RegisterEvents(es);
    }

    /** `loadJobs`: the loader's jobs, registered, then the job listener set up. */
    method LoadJobs(fs: FL.FileSystem, load: string -> FL.ModuleLoad<RootJob>)
      returns (ghost loaded: seq<Plugin<RootJob>>)
      requires fileLoader.Valid() && jobs.Valid() && jobListeners == (if jobListenerRegistered then 1 else 0)
      modifies fileLoader, this`jobs, this`schedules, this`jobListenerRegistered, this`jobListeners
      ensures fileLoader.Valid() && jobs.Valid() && jobListenerRegistered && jobListeners == 1
      ensures fileLoader.jobs.Valid() && loaded == fileLoader.jobs.Values()
      ensures fileLoader.jobsDirs == old(fileLoader.JobDirs(fs)) && fileLoader.jobsDirsResolved
      ensures fileLoader.jobs == PutAll(old(fileLoader.jobs),
        FL.DirWrites(fs, fileLoader.extensions, fileLoader.jobsDirs, load, FL.JobKey))
      ensures fileLoader.commands == old(fileLoader.commands) && fileLoader.events == old(fileLoader.events)
      ensures fileLoader.eventsDirs == old(fileLoader.eventsDirs) && fileLoader.eventsDirsResolved == old(fileLoader.eventsDirsResolved)
      ensures var r := JobsPass(loaded);
        jobs == PutAll(old(jobs), r.writes) && schedules == old(schedules) + r.schedules
    {
      ghost var dirs;
      var js;
      js, dirs := fileLoader.LoadJobs(fs, load);
      loaded := js.Values();
      RegisterJobs(js);
      SetupJobListener();
    }

    /** `setupMessageHandler`: attaches the chat message handler. */
    method SetupMessageHandler()
      modifies this`listening
      ensures listening
    {
      listening := true;
    }

    /** The loop of `loadCommands`: each loaded command under its name and its aliases, then the help command unless disabled. */
    method RegisterCommands(loaded: OMap<string, Plugin<RootCommand>>)
      requires commands.contents.Valid() && loaded.Valid()
      modifies commands
      ensures commands.contents.Valid()
      ensures commands.contents == PutAll(old(commands.contents),
        RegistryWrites(loaded.keys, loaded.vals) + HelpWrites(disableHelpCommand))
    {
      ghost var m0 := commands.contents;
      StoreLoaded(loaded);
      ghost var rw := RegistryWrites(loaded.keys, loaded.vals);
      if !disableHelpCommand {
        RegisterHelp();
        PutAllAppend(m0, rw, HelpWrites(false));
      } else {
        assert rw + HelpWrites(true) == rw;
      }
    }

    /** Each loaded command under its name, then under each of its aliases, in map order. */
    method StoreLoaded(loaded: OMap<string, Plugin<RootCommand>>)
      requires commands.contents.Valid() && loaded.Valid()
      modifies commands
      ensures commands.contents.Valid()
      ensures commands.contents == PutAll(old(commands.contents), RegistryWrites(loaded.keys, loaded.vals))
    {
      ghost var m0 := commands.contents;
      for i := 0 to |loaded.keys|
        invariant commands.contents == PutAll(m0, RegistryWrites(loaded.keys[..i], loaded.vals))
        invariant commands.contents.Valid()
      {
        var name := loaded.keys[i];
        RegistryWritesStep(loaded.keys, loaded.vals, i);
        PutAllAppend(m0, RegistryWrites(loaded.keys[..i], loaded.vals), EntryWrites(name, loaded.vals[name]));
        StoreEntry(name, loaded.vals[name]);
      }
      assert loaded.keys[..|loaded.keys|] == loaded.keys;
    }

    /** A help command over the shared registry, stored under its name and aliases. */
    method RegisterHelp()
      requires commands.contents.Valid()
      modifies commands
      ensures commands.contents.Valid()
      ensures commands.contents == PutAll(old(commands.contents), HelpWrites(false))
    {
      var help := new Help.HelpCommand(commands);
      var plugin := Plugin(help.command, "HelpCommand", false);
      assert plugin == HelpPlugin();
      StoreEntry(help.command.name, plugin);
    }

    /** `set` under a key, then under each alias of the command. */
    method StoreEntry(key: string, p: Plugin<RootCommand>)
      requires commands.contents.Valid()
      modifies commands
      ensures commands.contents == PutAll(old(commands.contents), EntryWrites(key, p))
      ensures commands.contents.Valid()
    {
      ghost var m0 := commands.contents;
      ghost var ws := EntryWrites(key, p);
      commands.Set(key, p);
      assert ws[..1] == [(key, p)];
      var aliases := p.unit.aliases;
      for i := 0 to |aliases|
        invariant commands.contents == PutAll(m0, ws[..i + 1])
      {
        commands.Set(aliases[i], p);
        assert ws[..i + 2] == ws[..i + 1] + [(aliases[i], p)];
        PutAllSnoc(m0, ws[..i + 1], (aliases[i], p));
      }
      assert ws[..|aliases| + 1] == ws;
      PutAllKeepsValid(m0, ws);
    }

    /**
     * The loop of `loadEvents` over the loaded events in map order, as `EventsPass`
     * describes it: the error of the first unknown SDK value stops the loop and is returned.
     */
    method RegisterEvents(loaded: OMap<string, Plugin<RootEvent>>) returns (error: Option<string>)
      requires events.Valid() && loaded.Valid()
      modifies this`events, this`subscriptions
      ensures EventState(events, subscriptions, error) == Tracked(old(events), old(subscriptions), loaded.Values())
      ensures events.Valid()
    {
      var es := loaded.Values();
      ghost var m0, s0 := events, subscriptions;
      error := None;
      var i := 0;
      while i < |es| && error.None?
        invariant 0 <= i <= |es|
        invariant EventState(events, subscriptions, error) == Tracked(m0, s0, es[..i])
      {
        error := LoadEventAt(m0, s0, es, i);
        i := i + 1;
      }
      if i < |es| {
        EventsPassStops(es, i);
      } else {
        assert es[..i] == es;
      }
      PutAllKeepsValid(m0, EventsPass(es).writes);
    }

    /**
     * One iteration of `loadEvents`: a disabled event is skipped; an enabled one is stored
     * under its key, then registered.
     */
    /** The iteration of `loadEvents` at position `i`, on the state the first `i` events left. */
    method LoadEventAt(ghost m0: OMap<string, Plugin<RootEvent>>, ghost s0: seq<Subscription>,
                       es: seq<Plugin<RootEvent>>, i: nat) returns (error: Option<string>)
      requires i < |es| && EventState(events, subscriptions, None) == Tracked(m0, s0, es[..i])
      modifies this`events, this`subscriptions
      ensures EventState(events, subscriptions, error) == Tracked(m0, s0, es[..i + 1])
    {
      EventApplyTracksPass(m0, s0, es, i);
      error := LoadEvent(es[i]);
    }

    method LoadEvent(e: Plugin<RootEvent>) returns (error: Option<string>)
      modifies this`events, this`subscriptions
      ensures EventState(events, subscriptions, error) == EventApply(EventState(old(events), old(subscriptions), None), e)
    {
      if !e.unit.enabled {
        return None;
      }
      events := events.Put(UnitKey(e.unit.name, e.className), e);
      error := RegisterEvent(e);
    }

    /**
     * `registerEvent`: a listener on the emitter routing chooses, attached once or
     * permanently as the event asks; an unknown SDK value is the error the source throws.
     */
    method RegisterEvent(e: Plugin<RootEvent>) returns (error: Option<string>)
      modifies this`subscriptions
      ensures match GetEventEmitter(e.unit.sdkEvent)
        case Err(message) => error == Some(message) && subscriptions == old(subscriptions)
        case Ok(c) => error.None? && subscriptions == old(subscriptions) + [Subscription(c, e.unit.sdkEvent, e.unit.once, e)]
    {
      var emitter := GetEventEmitter(e.unit.sdkEvent);
      if emitter.Err? {
        return Some(emitter.error);
      }
      subscriptions := subscriptions + [Subscription(emitter.value, e.unit.sdkEvent, e.unit.once, e)];
      error := None;
    }

    /** The loop of `loadJobs` over the loaded jobs in map order, as `JobsPass` describes it. */
    method RegisterJobs(loaded: OMap<string, Plugin<RootJob>>)
      requires jobs.Valid() && loaded.Valid()
      modifies this`jobs, this`schedules
      ensures jobs.Valid()
      ensures var r := JobsPass(loaded.Values());
        jobs == PutAll(old(jobs), r.writes) && schedules == old(schedules) + r.schedules
    {
      var js := loaded.Values();
      ghost var m0, s0 := jobs, schedules;
      for i := 0 to |js|
        invariant jobs == PutAll(m0, JobsPass(js[..i]).writes)
        invariant schedules == s0 + JobsPass(js[..i]).schedules
      {
        var j := js[i];
        if !j.unit.enabled {
          JobsPassSkips(js, i);
        } else {
          JobsPassStores(m0, js, i);
          var key := UnitKey(j.unit.name, j.className);
          jobs := jobs.Put(key, j);
          RegisterJob(j.unit);
        }
      }
      assert js[..|js|] == js;
      PutAllKeepsValid(m0, JobsPass(js).writes);
    }

    /** `registerJob`: one scheduler request with the job's own tag, resource, start, interval and end. */
    method RegisterJob(j: RootJob)
      modifies this`schedules
      ensures schedules == old(schedules) + [ScheduleOf(j)]
    {
      schedules := schedules + [ScheduleRequest(j.tag, j.resourceId, j.start, j.jobInterval, j.end)];
    }

    /** `setupJobListener`: attaches the job listener the first time only. */
    method SetupJobListener()
      requires jobListeners == (if jobListenerRegistered then 1 else 0)
      modifies this`jobListenerRegistered, this`jobListeners
      ensures jobListenerRegistered && jobListeners == 1
    {
      if jobListenerRegistered {
        return;
      }
      jobListenerRegistered := true;
      jobListeners := jobListeners + 1;
    }

    /**
     * The job listener on a firing: the first registered job, in map order, with the
     * fired tag and resource, and whether its executor runs (its validator, if any,
     * accepts). Nothing runs before the listener is attached.
     */
    method OnJobFired(tag: string, resourceId: string, verdict: Verdict) returns (matched: Option<Plugin<RootJob>>, executed: bool)
      requires jobs.Valid()
      ensures !jobListenerRegistered ==> matched.None?
      ensures jobListenerRegistered ==>
        var first := FirstJob(jobs.Values(), tag, resourceId);
        && (matched.None? <==> first.None?)
        && (matched.Some? ==> matched.value == jobs.Values()[first.value])
      ensures executed <==> matched.Some? && Passes(matched.value.hasValidator, verdict)
    {
      if !jobListenerRegistered {
        return None, false;
      }
      var js := jobs.Values();
      var first := FindJob(js, tag, resourceId);
      if first.None? {
        return None, false;
      }
      matched := Some(js[first.value]);
      executed := Passes(matched.value.hasValidator, verdict);
    }

    /**
     * `executeCommand`, with `Date.now()` as `now` and the validator's and executor's
     * behaviour as `verdict` and `outcome`: its result, cooldown map and replies are those
     * `Dispatch` describes.
     */
    method ExecuteCommand(name: string, args: seq<string>, channelId: string, userId: string, now: int,
                          verdict: Verdict, outcome: ExecOutcome) returns (ok: bool)
      modifies this`commandCooldowns, this`outbox
      ensures var d := Dispatch(commands.contents, old(commandCooldowns), name, args, channelId, userId, now, verdict, outcome);
        ok == d.ok && commandCooldowns == d.cooldowns && outbox == old(outbox) + d.replies
    {
      ghost var registry, cooldowns := commands.contents, commandCooldowns;
      var command := commands.Get(ToLower(name));
      if command.None? {
        UnknownCommandIsSilent(registry, cooldowns, name, args, channelId, userId, now, verdict, outcome);
        return false;
      }
      var p := command.value;
      var parsed := ParseArgs(p.unit, args);
      if !parsed.valid {
        BadArgumentsReplyOnce(registry, cooldowns, name, args, channelId, userId, now, verdict, outcome);
        outbox := outbox + [Reply(channelId, ArgumentErrorText(parsed.error.value, p.unit))];
        return false;
      }
      var key := CooldownKey(name, userId);
      var lastExecution := if key in commandCooldowns then commandCooldowns[key] else 0;
      if now - lastExecution < p.unit.cooldown * 1000 || (p.hasValidator && verdict != Accept) {
        GateRefusesSilently(registry, cooldowns, name, args, channelId, userId, now, verdict, outcome);
        return false;
      }
      StampedBeforeExecution(registry, cooldowns, name, args, channelId, userId, now, verdict, outcome);
      if p.unit.cooldown > 0 {
        commandCooldowns := commandCooldowns[key := now];
      }
      outbox := outbox + Replies(channelId, outcome.replies);
      ok := !outcome.throws;
    }

    /**
     * The chat message handler: a message the prefix and a command name start goes to
     * `executeCommand` under the lower-cased name; any other message changes nothing.
     */
    method HandleMessage(text: string, channelId: string, userId: string, now: int, verdict: Verdict, outcome: ExecOutcome)
      modifies this`commandCooldowns, this`outbox
      ensures !listening || Tokenize(cmdPrefix, text).None? ==>
        commandCooldowns == old(commandCooldowns) && outbox == old(outbox)
      ensures listening && Tokenize(cmdPrefix, text).Some? ==>
        var t := Tokenize(cmdPrefix, text).value;
        var d := Dispatch(commands.contents, old(commandCooldowns), t.0, t.1, channelId, userId, now, verdict, outcome);
        commandCooldowns == d.cooldowns && outbox == old(outbox) + d.replies
    {
      if !listening {
        return;
      }
      var t := Tokenize(cmdPrefix, text);
      if t.Some? {
        var _ := ExecuteCommand(t.value.0, t.value.1, channelId, userId, now, verdict, outcome);
      }
    }

    /** `getCommand`: the registry entry under the lower-cased name, the one `executeCommand` runs. */
    function GetCommand(name: string): (r: Option<Plugin<RootCommand>>)
      reads this, commands
      ensures r.Some? <==> commands.contents.Has(ToLower(name))
      ensures r.Some? ==> r.value == commands.contents.vals[ToLower(name)]
    {
      commands.Get(ToLower(name))
    }
  }
}
