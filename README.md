# rdx.js plugin discovery and dispatch, in Dafny

rdx.js is a framework for chat-platform server apps. Authors drop command, event and job
modules into known folders. The framework discovers them, registers them, and runs them
when a chat message, a platform event or a scheduled job fires. This project models that
engine and proves what it promises:

- **Command schema** (`RootCommands`): the `RootCommand` constructor defaults, `parseArgs`
  with its three error messages, and `getUsage`. `ParseResult` is the specification
  function. `ParseArgs` is the loop, proved equal to it.
- **Dispatch facade** (`ServerApp`): the `RDXServerApp` class.
  - It holds the command registry, the event and job maps, the cooldown map, the
    registered subscriptions and schedules, and the job-listener flag.
  - Modelled operations: message tokenisation, registration order (names, then aliases,
    then the built-in help command), the dispatch gates in `executeCommand`, event routing
    over the seven SDK categories, and the job listener.
  - `Dispatch` is the specification of one command dispatch. `ExecuteCommand` updates the
    object's state exactly as `Dispatch` says.
- **Discovery loader** (`FileLoading`): the `FileLoader` class.
  - The file system is a finite map from a directory path to its entries.
  - Modelled operations: `normalizeDirs`, the stack walk that discovers folders, the
    cached event and job directory lists, the recursive `getFiles`, `isValidFile`, the
    `load*` loops, and `loadCommand`/`loadEvent`/`loadJob` as a function of a module's
    exports.
- **Event-type tables**:
  - `RootEventTypes` is the newer 28-member table of `src/lib/Types/RootEventType.ts`.
  - `LegacyRootEventTypes` is the older 10-member table of `src/lib/RootEventType.ts`,
    the one `RootEvent` imports.
  - `SdkEvents` holds the seven SDK categories, with the values the repository's test
    setup gives them.
- **Plugin units and the help command**:
  - `RootEvents` and `RootJobs` model the event and job constructors.
  - `HelpCommands` models `HelpCommand`: de-duplication by name, grouping by category in
    first-seen order, the listing and detail texts, and the lookup by name or alias.

Shared modules:

- `Wrappers`: `Option` and `Result`.
- `Strings`: JavaScript's `trim`, `split(/\s+/)`, `toLowerCase` and `join` on `seq<char>`.
- `Seqs`: first-occurrence de-duplication, which is what a JavaScript `Set` does to an array.
- `OrderedMaps`: a JavaScript `Map` with insertion order, where overwriting a key keeps its
  position.
- `Plugins`: the outcome of a validator or executor.
  - `Verdict` is accept, reject or throw.
  - `ExecOutcome` is the replies sent and whether it threw.
  - `Plugin<T>` is a loaded unit together with its class name and whether it defines
    `validate`.

Time is a parameter `now`. Replies go to an append-only outbox. Handlers are oracles.

Some behaviours of the code are easy to miss, and the model keeps each of them as written:

- The cooldown timestamp is written after the validator passes and before `execute`
  (src/lib/RDXServerApp.ts:395-407). A command whose executor throws still starts its
  cooldown. `StampedBeforeExecution` states this.
- `getEventEmitter` takes the first category that holds the value, in a fixed order. It
  does not reject a value found in two categories (src/lib/RDXServerApp.ts:329-346). With
  the newer table no value is in two categories (`EachValueInExactlyOneCategory`).
- The example `echo` command declares exactly one required argument
  (examples/example-app/server/src/commands/echo.ts:5-20), and `parseArgs` refuses more
  tokens than declarations (src/lib/RootCommand.ts:84-90). So `!echo hello world` gets the
  "Too many arguments" reply and is not echoed (`EchoRefusesTwoWords`).
- `RootEvent` uses the older table. Its two community-member entries are raw strings in no
  SDK category (src/lib/RootEventType.ts:51-52). Loading such an event, when it is enabled,
  therefore throws
  "Unknown event type" (src/lib/RDXServerApp.ts:345) and aborts initialisation
  (`CommunityMemberEventFails`, `Initialize`).
- The usage hint in an argument-error reply always starts with `!`, whatever `cmdPrefix`
  is (src/lib/RDXServerApp.ts:370).
- `FileLoader.getEvent` and `getJob` look up the string they are given, but the maps are
  keyed `name:path` (src/lib/Utils/FileLoader.ts:338-346, 465-482). A bare event name
  finds nothing. The model keeps that lookup by the full key.

## Model

| member | source | states |
|---|---|---|
| RootCommands.NewCommand | src/lib/RootCommand.ts:58-67 | name, description and usage are copied. Omitted aliases, args and examples become empty, an omitted category becomes "General" and an omitted cooldown becomes 0. Given values are kept. |
| RootCommands.RequiredCount | src/lib/RootCommand.ts:74 | the number of required declarations is at most the number of declarations. It is 0 exactly when none is required, and the full count exactly when all are. |
| RootCommands.FirstRejected | src/lib/RootCommand.ts:93-106 | the lowest position whose token lies outside its declaration's non-empty option list; every earlier token is admitted. It is absent exactly when every token is admitted. |
| RootCommands.Admits | src/lib/RootCommand.ts:97-98 | a token passes its declaration exactly when the declaration has no non-empty option list or the token is one of its options |
| RootCommands.ParseResult | src/lib/RootCommand.ts:72-112 | the tokens are always returned unchanged, and a result is valid exactly when it has no error. A parse is valid exactly when the token count lies between the required count and the declaration count and every token is admitted by its declaration. |
| RootCommands.ParseArgs | src/lib/RootCommand.ts:72-112 | the early-exit loop returns exactly the result `ParseResult` specifies |
| RootCommands.ParseMissing | src/lib/RootCommand.ts:75-81 | fewer tokens than required declarations gives the "Missing required arguments" error with both counts, whichever positions are required |
| RootCommands.ParseTooMany | src/lib/RootCommand.ts:84-90 | enough tokens but more than declared gives the "Too many arguments" error with both counts. The missing-arguments check comes first. |
| RootCommands.ParseInvalid | src/lib/RootCommand.ts:93-106 | within the count range, the first rejected token gives the "Invalid value" error naming that declaration and listing its options |
| RootCommands.RenderArgs | src/lib/RootCommand.ts:122-125 | one rendered piece per declaration, in declaration order |
| RootCommands.RenderArg | src/lib/RootCommand.ts:123-124 | a declaration renders as `<name>` or `<a\|b>` when it has options, wrapped in `[…]` when optional |
| RootCommands.GetUsage | src/lib/RootCommand.ts:117-120 | a non-empty explicit usage is returned as it is |
| RootCommands.RenderedArgIsBracketed | src/lib/RootCommand.ts:123-124 | each rendered declaration starts with `<` or `[` and ends with `>` or `]` |
| RootCommands.RenderedArgsAreBracketed | src/lib/RootCommand.ts:122-127 | the joined pieces neither start nor end with white space, so the final trim keeps them whole |
| RootCommands.UsageShape | src/lib/RootCommand.ts:122-127 | with no explicit usage, the usage is the bare name when nothing is declared. Otherwise it is the name, one space and the pieces joined by spaces. |
| RootCommands.UsageExampleRequiredAndOptional | tests/RootCommand.test.ts:129-134 | one required and one optional declaration render as "test <arg1> [<arg2>]" |
| RootCommands.UsageExampleOptions | tests/RootCommand.test.ts:155-160 | an option list renders as "option-test <easy\|medium\|hard>" |
| RootCommands.EmptyOptionsQuirk | src/lib/RootCommand.ts:97-124 | an empty option list renders as `<>` or `[<>]` in the usage, yet admits every token in `parseArgs` |
| RootEvents.NewEvent | src/lib/RootEvent.ts:27-34 | name and event are the tag, and sdkEvent is the older table's entry for it. `once` holds only when given as true; `enabled` holds unless given as false. |
| RootEvents.OmittedFlagsAreDefaults | src/lib/RootEvent.ts:32-33 | omitting `once` is the same as passing false, and omitting `enabled` the same as passing true |
| RootEvents.NameIsSdkValue | src/lib/RootEvent.ts:29-31 | with the older table, an event's SDK value is its own name, for all ten tags |
| RootEvents.NameDeterminesTag | src/lib/RootEvent.ts:29 | two events have the same name exactly when they have the same tag |
| RootJobs.NewJob | src/lib/RootJob.ts:29-37 | tag, resourceId, start, interval and the optional end are copied. `enabled` holds unless given as false, and the name is always the tag. |
| RootJobs.OmittedEnabledIsTrue | src/lib/RootJob.ts:35 | omitting `enabled` is the same as passing true |
| LegacyRootEventTypes.EnumerationHas10Members | src/lib/RootEventType.ts:15-34 | the enumeration lists ten members, every member appears in it, and the first eight are the channel-message members |
| LegacyRootEventTypes.RootEventMap | src/lib/RootEventType.ts:39-55 | the older table: eight channel-message members to their same-named SDK values, and the two community-member members to their own names as raw strings |
| LegacyRootEventTypes.ChannelMessageEntries | src/lib/RootEventType.ts:40-48 | each channel-message member maps to the channel-message SDK value of the same name, which is also what the newer table gives it |
| LegacyRootEventTypes.RawStringsAreNotSdkValues | src/lib/RootEventType.ts:51-52 | "CommunityMemberJoined" and "CommunityMemberLeft" are the value of no entry of the newer table |
| LegacyRootEventTypes.CommunityEntriesAreUnclassified | src/lib/RootEventType.ts:51-52 | the two community-member entries map to their own names, which lie in none of the seven SDK categories |
| LegacyRootEventTypes.KindsDiffer | src/lib/RootEventType.ts:39-55 | a channel-message entry never shares its value with a community-member entry |
| LegacyRootEventTypes.MapIsInjective | src/lib/RootEventType.ts:39-55 | two members map to the same value exactly when they are the same member |
| LegacyRootEventTypes.Downgrade | src/lib/RootEventType.ts:15-34 | an older member found for a newer member has that newer member's name |
| LegacyRootEventTypes.DowngradeInvertsUpgrade | src/lib/RootEventType.ts:15-34 | every older member is a newer member of the same name, and maps back to itself |
| RootEventTypes.EnumerationHas28Members | src/lib/Types/RootEventType.ts:6-46 | the enumeration lists exactly 28 members, each at its declared position |
| RootEventTypes.EnumerationIsDistinct | src/lib/Types/RootEventType.ts:6-46 | no member is listed twice |
| RootEventTypes.EntryIsSdkMember | tests/EventEmitter.test.ts:14-32 | every mapped value is a value of the SDK category it is taken from |
| RootEventTypes.RootEventMap | src/lib/Types/RootEventType.ts:51-88 | the newer table: each of the 28 members to its SDK category and value, as listed |
| RootEventTypes.MemberOfInvertsMap | src/lib/Types/RootEventType.ts:51-88 | the table is total, and looking a mapped value up again gives back the member it came from |
| RootEventTypes.MapIsInjective | tests/EventEmitter.test.ts:129-137 | two members map to the same value exactly when they are the same member |
| RootEventTypes.MemberOfCoversValues | src/lib/Types/RootEventType.ts:51-88 | the table is onto: every value of every SDK category (as tests/setup.ts gives the categories) is the mapped value of some member, taken from that category. No test of the repository states this direction. |
| RootEventTypes.MappedValueCategories | tests/EventEmitter.test.ts:159-180 | a mapped value lies in a category exactly when that is the category it was taken from |
| RootEventTypes.EachValueInExactlyOneCategory | tests/EventEmitter.test.ts:159-180 | every mapped value lies in exactly one of the seven categories |
| RootEventTypes.NameIsValue | src/lib/Types/RootEventType.ts:51-88 | a member's name equals its mapped value exactly when it is neither CommunityMemberJoined nor CommunityMemberLeft |
| RootEventTypes.CommunityMembersMapToCommunityEvent | src/lib/Types/RootEventType.ts:63-64 | CommunityMemberJoined and CommunityMemberLeft map into the community category, not the community-member category |
| RootEventTypes.ChannelMessageNaming | tests/EventEmitter.test.ts:34-45 | members mapped into channel-message events are named ChannelMessage… |
| RootEventTypes.CommunityNaming | tests/EventEmitter.test.ts:47-58 | members mapped into community events are named after Community or Member |
| RootEventTypes.BanNaming | tests/EventEmitter.test.ts:60-71 | members mapped into ban events have Ban in their name |
| RootEventTypes.MemberNaming | tests/EventEmitter.test.ts:73-84 | members mapped into community-member events are named after Member or User |
| RootEventTypes.ChannelNaming | tests/EventEmitter.test.ts:86-101 | members mapped into channel events are named Channel…, but not ChannelMessage…, ChannelGroup… or ChannelDirectory… |
| RootEventTypes.ChannelGroupNaming | tests/EventEmitter.test.ts:103-114 | members mapped into channel-group events are named ChannelGroup… |
| RootEventTypes.ChannelDirectoryNaming | tests/EventEmitter.test.ts:116-127 | members mapped into channel-directory events are named ChannelDirectory… |
| SdkEvents.CountIn | tests/EventEmitter.test.ts:159-180 | the number of categories holding a value is at most the number of categories. It is 0 exactly when none holds it. |
| Strings.Trim | src/lib/RDXServerApp.ts:151 | the result neither starts nor ends with white space. It is the slice of the input left after dropping only white space at either end. |
| Strings.SplitJoinRoundTrip | src/lib/RDXServerApp.ts:152 | splitting on white space undoes joining non-empty, space-free words with single spaces |
| Strings.SplitWs | src/lib/RDXServerApp.ts:152 | `split(/\s+/)`: the maximal runs of non-white-space, with an empty first or last field when the text starts or ends with white space; never empty |
| Strings.Join | src/lib/RootCommand.ts:123-127 | `join(sep)`: the parts with `sep` between neighbours, the empty string for no parts |
| Strings.ToLower | src/lib/RDXServerApp.ts:153 | same length, with each character lower-cased |
| OrderedMaps.LastWriteWins | src/lib/RDXServerApp.ts:166-180 | after a sequence of `set` calls, each key holds its last written value, and an unwritten key keeps its old value |
| OrderedMaps.PutAllKeyOrder | src/lib/BaseCommands/HelpCommand.ts:48 | a map iterates its keys in order of first insertion; overwriting a key does not move it |
| OrderedMaps.MapObject.constructor | src/lib/RDXServerApp.ts:48 | a new map is empty |
| OrderedMaps.MapObject.Set | src/lib/RDXServerApp.ts:167 | `set` stores the value under the key and changes nothing else |
| OrderedMaps.MapObject.Get | src/lib/RDXServerApp.ts:415 | `get` finds a value exactly when the key is present |
| ServerApp.Tokenize | src/lib/RDXServerApp.ts:145-160 | there is no dispatch exactly when the text lacks the prefix or nothing but white space follows it. Otherwise the command name is non-empty. |
| ServerApp.TokenizeJoined | src/lib/RDXServerApp.ts:151-153 | prefix plus words joined by single spaces gives the lower-cased first word as the name and the other words as arguments |
| ServerApp.TokenizeSeesTrimmedText | src/lib/RDXServerApp.ts:151 | texts whose remainders trim to the same string tokenize alike |
| ServerApp.TokenizeIgnoresTrailingSpace | src/lib/RDXServerApp.ts:151-152 | a trailing space adds no empty argument |
| ServerApp.FirstCategoryFinds | src/lib/RDXServerApp.ts:329-343 | the chosen index is the first category holding the value; no earlier category holds it. There is none exactly when no category holds the value. |
| ServerApp.GetEventEmitter | src/lib/RDXServerApp.ts:329-346 | the category of the first test in the if-chain that holds the value, or the error "Unknown event type: v"; characterised by `EmitterAgreesWithCategories` and `EmitterIsFirstMatch` |
| ServerApp.EmitterAgreesWithCategories | src/lib/RDXServerApp.ts:329-346 | the chosen emitter's category holds the value. The error "Unknown event type: v" comes exactly when no category holds it. |
| ServerApp.EmitterIsFirstMatch | src/lib/RDXServerApp.ts:329-343 | the first category of the fixed order that holds the value is chosen, whatever later ones hold |
| ServerApp.UniqueCategoryIsChosen | src/lib/RDXServerApp.ts:329-343 | a value held by exactly one category routes to it |
| ServerApp.LegacyEventRouting | src/lib/RDXServerApp.ts:315-346 | with the older table, channel-message events route to channel messages and the two community-member events raise "Unknown event type" |
| ServerApp.CurrentEventRouting | src/lib/RDXServerApp.ts:329-343 | with the newer table, every entry routes to the category its value is taken from |
| ServerApp.UnitKeyIdentifiesNameAndClass | src/lib/RDXServerApp.ts:349-353 | for names without a colon, two `name:Class` keys are equal exactly when name and class are |
| ServerApp.UnitKey | src/lib/RDXServerApp.ts:349-353 | an event's or job's registry key: its name, ':', and its constructor's name |
| ServerApp.DispatchSucceedsExactly | src/lib/RDXServerApp.ts:355-412 | a dispatch returns true exactly when all of these hold: the lower-cased name is registered, the arguments parse, the invoker is off cooldown, the validator passes, and the executor does not throw |
| ServerApp.Dispatch | src/lib/RDXServerApp.ts:355-412 | the reference for one `executeCommand` call: lookup by lower-cased name, usage reply on bad arguments, silent refusal on cooldown or validator refusal, a stamp before execution, the executor's replies, and success exactly when it does not throw |
| ServerApp.OnCooldown | src/lib/RDXServerApp.ts:374-378 | the gate: fewer than `cooldown` × 1000 milliseconds since the last stamp under the invoked name and user, a missing stamp counting as 0 |
| ServerApp.UnknownCommandIsSilent | src/lib/RDXServerApp.ts:360-364 | an unknown name returns false with no reply and no cooldown change |
| ServerApp.BadArgumentsReplyOnce | src/lib/RDXServerApp.ts:366-372 | an argument error sends exactly one reply, "❌ error" followed by the usage hint, returns false and leaves cooldowns alone |
| ServerApp.StampedBeforeExecution | src/lib/RDXServerApp.ts:395-407 | once every gate has passed, a positive cooldown is stamped with `now` whether or not the executor throws. Nothing is stamped otherwise. The executor's replies are sent, and the result is whether it completed. |
| ServerApp.GateRefusesSilently | src/lib/RDXServerApp.ts:374-398 | when the cooldown is active or the validator rejects or throws, the result is false, with no reply and no stamp |
| Plugins.Passes | src/lib/RDXServerApp.ts:395 | the validator gate: execution goes ahead exactly when there is no validator or it accepts; a throwing validator stops it |
| ServerApp.CooldownWindow | src/lib/RDXServerApp.ts:374-402 | after a successful stamp at t, a second dispatch at t2 is refused exactly when t2 - t < cooldown × 1000. Otherwise it restamps at t2. |
| ServerApp.AliasHasOwnCooldown | src/lib/RDXServerApp.ts:374 | dispatching under an alias never touches the cooldown stamped under the command's name |
| ServerApp.CooldownKeysDiffer | src/lib/RDXServerApp.ts:374 | different invoked names give different cooldown keys for the same user |
| ServerApp.EchoCommand | examples/example-app/server/src/commands/echo.ts:5-20 | the echo fixture: name "echo", one required argument "message", cooldown 3, no explicit usage |
| ServerApp.EchoUsage | examples/example-app/server/src/commands/echo.ts:7-15 | its usage is "echo <message>" |
| ServerApp.EchoTooMany | examples/example-app/server/src/commands/echo.ts:9-15 | "hello world" is two tokens for one declaration, which gives "Too many arguments. Expected at most 1, got 2" |
| ServerApp.EchoRefusesTwoWords | src/lib/RDXServerApp.ts:366-372 | dispatching `echo hello world` replies once with that error and the usage "echo <message>", returns false and stamps nothing |
| ServerApp.AliasWrites | src/lib/RDXServerApp.ts:169-171 | one write per alias, in order, each storing the command |
| ServerApp.RegistryWritesFromEntries | src/lib/RDXServerApp.ts:166-172 | every registry write stores a loaded command under its own name or one of its aliases |
| ServerApp.EntriesAreWritten | src/lib/RDXServerApp.ts:166-172 | every loaded command's name and every one of its aliases is written |
| ServerApp.LoadedKeysResolve | src/lib/RDXServerApp.ts:166-180 | after registration, every loaded name and alias is a registry key |
| ServerApp.ResolvedKeysComeFromWrites | src/lib/RDXServerApp.ts:166-180 | every registry key holds one of these: a loaded command under its name or alias, the help command (when help is enabled), or its earlier value |
| ServerApp.HelpWinsCollisions | src/lib/RDXServerApp.ts:174-180 | with help enabled, "help", "h" and "?" resolve to the help command whatever was loaded |
| ServerApp.EventsPassSound | src/lib/RDXServerApp.ts:188-197 | only enabled events are stored, under `name:Class`. Each subscription is for an enabled event, on its SDK value, with its `once` flag, in the category routing chose. |
| ServerApp.EventsPass | src/lib/RDXServerApp.ts:188-197 | the reference for the event loop: a disabled event is skipped, an enabled one is stored under `name:Class` then subscribed, and the first unroutable value stops the pass with its error |
| ServerApp.EventsPassFailsExactly | src/lib/RDXServerApp.ts:185-200 | loading events fails exactly when some enabled event's SDK value lies in no category |
| ServerApp.EventsPassErrorNamesValue | src/lib/RDXServerApp.ts:345-346 | a failure reports "Unknown event type: " followed by the SDK value of an enabled event |
| ServerApp.CommunityMemberEventFails | src/lib/RDXServerApp.ts:188-197 | any enabled event built for a community-member tag makes loading fail |
| ServerApp.EventsPassStops | src/lib/RDXServerApp.ts:130-141 | the first unroutable event ends loading, because its error leaves `loadEvents` for the catch in `initialize`. Later events change nothing. |
| ServerApp.JobsPassSound | src/lib/RDXServerApp.ts:205-214 | exactly the enabled jobs are stored under `name:Class`, each with one schedule request built from its own fields |
| ServerApp.JobsPass | src/lib/RDXServerApp.ts:205-214 | the reference for the job loop: a disabled job is skipped, an enabled one is stored under `name:Class` and gives one schedule request |
| ServerApp.JobsPassSkips | src/lib/RDXServerApp.ts:206-209 | a disabled job changes nothing |
| ServerApp.JobsPassStores | src/lib/RDXServerApp.ts:211-213 | an enabled job is stored under its key and adds one schedule request |
| ServerApp.FirstJob | src/lib/RDXServerApp.ts:242-244 | the first registered job whose tag and resourceId both match; none exactly when no job matches |
| ServerApp.FindJob | src/lib/RDXServerApp.ts:242-244 | the scan returns the job `FirstJob` specifies |
| ServerApp.ChooseBaseDir | src/lib/RDXServerApp.ts:58-77 | a non-empty given base directory wins. Otherwise the choice is `dist` or `src` under the working directory: `dist` when running from dist and it exists, else an existing one of the two when there is one. |
| ServerApp.MergedAgreesWithLoaderDefaults | src/lib/RDXServerApp.ts:79-88 | without loader overrides, the merged options configure the loader as its own defaults would under the chosen base and folder names |
| ServerApp.MergedLoaderOptions | src/lib/RDXServerApp.ts:79-88 | the loader options: the base directory, each folder name from the app option or its default, each directory as that folder under the base, with every field of the `loader` option overriding |
| ServerApp.LoaderFolderNameDoesNotMoveDefaultDir | src/lib/RDXServerApp.ts:79-88 | a loader-level folder name changes what discovery looks for, but the default commands directory still uses the app-level folder name |
| ServerApp.RDXServerApp.constructor | src/lib/RDXServerApp.ts:56-98 | the loader is configured from the merged options. The defaults are prefix "!" and help enabled. Every map is empty and no listener is attached. |
| ServerApp.RDXServerApp.Initialize | src/lib/RDXServerApp.ts:100-143 | the loader's command map gains the writes of every command file under the configured and discovered command directories, and the registry is the old one plus those commands' names and aliases, with help last. The loader's event directories are resolved and its event map gains every event file's writes; events, subscriptions and the exit flag are the event pass over exactly those events. An unroutable enabled event ends start-up with the loader's jobs, the job map, schedules, job listener and message listener untouched. Otherwise the loader's job directories are resolved, its job map gains every job file's writes, the job map and schedules are the job pass over them, the job listener is attached once, and messages are listened to. |
| ServerApp.RDXServerApp.LoadEventsAndJobs | src/lib/RDXServerApp.ts:130-133 | the loader's events are loaded from its resolved event directories and the event pass runs over them, leaving the loader's commands alone. Only when it succeeds are the loader's jobs loaded from its resolved job directories, the job map and schedules set to the job pass over them, and the message listener attached; otherwise jobs and both listeners are untouched. |
| ServerApp.RDXServerApp.LoadCommands | src/lib/RDXServerApp.ts:163-183 | the loader's command map gains the writes of every command file under the configured then discovered command directories, its other maps and directory caches unchanged; the registry becomes the old one plus, in order, each loaded command's name and aliases and then the help writes |
| ServerApp.RDXServerApp.LoadEvents | src/lib/RDXServerApp.ts:185-200 | the loader's event directories are its cache or, on a first call, the configured then discovered ones, and its event map gains every event file's writes from them; the event map, subscriptions and error are what the event pass gives on the loader's events; the loader's commands and jobs are untouched |
| ServerApp.RDXServerApp.LoadJobs | src/lib/RDXServerApp.ts:202-220 | the loader's job directories are its cache or, on a first call, the configured then discovered ones, and its job map gains every job file's writes from them; the job map and schedules are what the job pass gives on the loader's jobs, and the listener is attached exactly once; the loader's commands and events are untouched |
| ServerApp.RDXServerApp.SetupMessageHandler | src/lib/RDXServerApp.ts:145-146 | the message listener is attached |
| ServerApp.RDXServerApp.RegisterCommands | src/lib/RDXServerApp.ts:166-180 | the registry loop plus the help block, as writes in that order |
| ServerApp.RDXServerApp.StoreLoaded | src/lib/RDXServerApp.ts:166-172 | each loaded command is written under its name and then its aliases |
| ServerApp.RDXServerApp.RegisterHelp | src/lib/RDXServerApp.ts:174-180 | the help command is written under "help", "h" and "?" |
| ServerApp.RDXServerApp.StoreEntry | src/lib/RDXServerApp.ts:167-171 | one command is written under its key and then its aliases |
| ServerApp.RDXServerApp.RegisterEvents | src/lib/RDXServerApp.ts:188-197 | the loop leaves exactly the state of the event pass over the loaded events, stopping at the first error |
| ServerApp.RDXServerApp.LoadEventAt | src/lib/RDXServerApp.ts:189-196 | one loop iteration extends the tracked state by one event |
| ServerApp.RDXServerApp.LoadEvent | src/lib/RDXServerApp.ts:189-196 | a disabled event changes nothing. An enabled event is stored under `name:Class` and then subscribed, or reports the routing error. |
| ServerApp.RDXServerApp.RegisterEvent | src/lib/RDXServerApp.ts:315-322 | a routable event adds one subscription on its category, value and `once` flag. An unroutable one returns the error and adds none. |
| ServerApp.RDXServerApp.RegisterJobs | src/lib/RDXServerApp.ts:205-214 | the job loop leaves exactly the job pass's map writes and schedule requests |
| ServerApp.RDXServerApp.RegisterJob | src/lib/RDXServerApp.ts:222-230 | one schedule request carrying the job's tag, resource, start, interval and end |
| ServerApp.RDXServerApp.SetupJobListener | src/lib/RDXServerApp.ts:232-240 | afterwards the listener is attached, and exactly once, however often this is called |
| ServerApp.RDXServerApp.OnJobFired | src/lib/RDXServerApp.ts:240-264 | a firing picks the first registered job matching tag and resourceId, or none. It executes exactly when one matched and its validator passes. |
| ServerApp.RDXServerApp.ExecuteCommand | src/lib/RDXServerApp.ts:355-412 | result, cooldown map and outbox are exactly as `Dispatch` specifies |
| ServerApp.RDXServerApp.HandleMessage | src/lib/RDXServerApp.ts:146-160 | with no listener or a text that does not tokenize, nothing changes. Otherwise the tokenized name and arguments are dispatched. |
| ServerApp.RDXServerApp.GetCommand | src/lib/RDXServerApp.ts:414-416 | the lookup is by the lower-cased name, and finds exactly what the registry holds there |
| FileLoading.Extname | src/lib/Utils/FileLoader.ts:330 | the extension is empty, or a dot-led proper suffix of the name with no further dot |
| FileLoading.DefaultValidFiles | src/lib/Utils/FileLoader.ts:329-336 | with the default extensions, a name is valid exactly when it ends in ".js" or ".ts", has more than the extension, and does not end in ".d.ts" |
| FileLoading.IsValidFile | src/lib/Utils/FileLoader.ts:329-336 | a name is valid exactly when it does not end in ".d.ts" and its extension is one of the allowed ones |
| FileLoading.NormalizeDirs | src/lib/Utils/FileLoader.ts:181-185 | the same set of directories as given, with no repeats |
| FileLoading.CombinedDirsProperties | src/lib/Utils/FileLoader.ts:187-193 | the combined list holds exactly the configured and discovered directories, with no repeats, and starts with the configured ones in order |
| FileLoading.FilesOfItemsAbort | src/lib/Utils/FileLoader.ts:163-171 | an unreadable subdirectory makes the whole `getFiles` call fail |
| FileLoading.FilesAreListedFiles | src/lib/Utils/FileLoader.ts:162-179 | every returned path is a valid regular file listed in a directory of the tree |
| FileLoading.FilesOfItemsComplete | src/lib/Utils/FileLoader.ts:162-179 | every valid file listed, and every file of every subdirectory, is among those returned |
| FileLoading.FilesUnder | src/lib/Utils/FileLoader.ts:162-179 | the reference for `getFiles`: the listing in order, each valid file as its joined path and each subdirectory replaced by its own files, and no result when any directory on the way is unreadable |
| FileLoading.LoadUnit | src/lib/Utils/FileLoader.ts:351-377 | a unit loads exactly when the chosen export is a class whose instance extends the base class. The load throws exactly when `require` or the constructor throws. |
| FileLoading.DefaultExportDecides | src/lib/Utils/FileLoader.ts:357 | a truthy default export decides the outcome whatever the named export is, and a falsy one defers to the named export |
| FileLoading.NamePathKeyInjective | src/lib/Utils/FileLoader.ts:338-346 | for names without a colon, two `name:path` keys are equal exactly when name and path are |
| FileLoading.CommandKey | src/lib/Utils/FileLoader.ts:73 | a command's map key is its name |
| FileLoading.EventKey | src/lib/Utils/FileLoader.ts:338-341 | an event's map key is its name, ':', and its resolved file path |
| FileLoading.JobKey | src/lib/Utils/FileLoader.ts:343-346 | a job's map key is its name, ':', and its resolved file path |
| FileLoading.LoadedFilesAreWritten | src/lib/Utils/FileLoader.ts:69-75 | every file that yields a unit is written under its key |
| FileLoading.CommandWritesUseNames | src/lib/Utils/FileLoader.ts:73 | a command is written under its own name |
| FileLoading.DirWritesFromListedFiles | src/lib/Utils/FileLoader.ts:99-118 | every write comes from a valid file listed in the tree |
| FileLoading.ListedFileIsWritten | src/lib/Utils/FileLoader.ts:65-83 | every loadable valid file of a readable directory is written |
| FileLoading.CommandDirWritesUseNames | src/lib/Utils/FileLoader.ts:65-83 | across all directories, each command is written under its own name |
| FileLoading.CommandsStayKeyedByName | src/lib/Utils/FileLoader.ts:57-86 | the command map stays keyed by name, and each key holds its last written command |
| FileLoading.LoadingNeverForgets | src/lib/Utils/FileLoader.ts:32-34 | the maps are never cleared, so a key present before loading stays present |
| FileLoading.LoadFiles | src/lib/Utils/FileLoader.ts:69-79 | the per-file loop leaves the map as the file writes applied in order |
| FileLoading.FileLoader.constructor | src/lib/Utils/FileLoader.ts:36-52 | the defaults are: base directory from the options or the library root, folder names "commands", "events" and "jobs", directories joined from those and normalized, and extensions ".js" and ".ts". Nothing is resolved yet and the maps are empty. |
| FileLoading.FileLoader.GetFiles | src/lib/Utils/FileLoader.ts:162-179 | the recursive walk returns exactly the listing-order file list, or fails when a directory on the way is unreadable |
| FileLoading.DiscoveryOrder | src/lib/Utils/FileLoader.ts:221-254 | the reference walk: pop the last path, skip an empty or unreadable one, visit its entries in listing order, record a subdirectory named after the folder unless already recorded, and push every subdirectory |
| FileLoading.DiscoveryOrderFinds | src/lib/Utils/FileLoader.ts:221-254 | the walk's order holds exactly the directories named after the folder below the start, nested matches included, each once |
| FileLoading.MatchesUnder | src/lib/Utils/FileLoader.ts:231-248 | the independent set of matches: every subdirectory entry named after the folder in every readable directory reachable from the start |
| FileLoading.FileLoader.DiscoverDirectories | src/lib/Utils/FileLoader.ts:221-254 | the stack walk returns its matches in exactly the order `DiscoveryOrder` gives: last pushed popped first, entries pushed in listing order, a repeat not recorded again |
| FileLoading.FileLoader.GetCommandDirectories | src/lib/Utils/FileLoader.ts:187-193 | the configured directories followed by the discovered ones in discovery order, repeats dropped; as a set, exactly the configured directories and the matches |
| FileLoading.FileLoader.GetEventDirectories | src/lib/Utils/FileLoader.ts:195-206 | the first call combines configured and discovered directories, in discovery order, and caches the result. Later calls return the cache. |
| FileLoading.FileLoader.GetJobDirectories | src/lib/Utils/FileLoader.ts:208-219 | the same caching, for jobs |
| FileLoading.FileLoader.CommandDirs | src/lib/Utils/FileLoader.ts:187-193 | the command directories on a file system: the configured ones, then the discovered ones in discovery order, repeats dropped |
| FileLoading.FileLoader.EventDirs | src/lib/Utils/FileLoader.ts:195-206 | the event directories a call would return: the cache once resolved, otherwise the configured then discovered ones |
| FileLoading.FileLoader.JobDirs | src/lib/Utils/FileLoader.ts:208-219 | the same, for jobs |
| FileLoading.FileLoader.LoadAll | src/lib/Utils/FileLoader.ts:65-83 | the per-directory loop leaves the map as all directory writes applied in order, skipping unreadable directories |
| FileLoading.FileLoader.LoadCommands | src/lib/Utils/FileLoader.ts:57-86 | the command map gains the writes of every command file, keyed by name, directory by directory in the order `GetCommandDirectories` gives, so a later directory's same-named command wins. Nothing else changes. |
| FileLoading.FileLoader.LoadEvents | src/lib/Utils/FileLoader.ts:91-121 | the event map gains the writes of every event file under the cached directories, keyed `name:path` |
| FileLoading.FileLoader.LoadJobs | src/lib/Utils/FileLoader.ts:126-157 | the job map gains the writes of every job file under the cached directories, keyed `name:path` |
| FileLoading.FileLoader.GetCommand | src/lib/Utils/FileLoader.ts:458-460 | finds a command exactly when its name is a key |
| FileLoading.FileLoader.GetEvent | src/lib/Utils/FileLoader.ts:465-467 | finds an event exactly when the string given is a full `name:path` key |
| FileLoading.FileLoader.GetJob | src/lib/Utils/FileLoader.ts:479-481 | finds a job exactly when the string given is a full `name:path` key |
| HelpCommands.Label | src/lib/BaseCommands/HelpCommand.ts:59 | a group label is never empty, and a non-empty category is its own label |
| HelpCommands.FindIndex | src/lib/BaseCommands/HelpCommand.ts:89-94 | the first command, in map order, whose name or aliases match; none exactly when no command matches |
| HelpCommands.ListingText | src/lib/BaseCommands/HelpCommand.ts:45-80 | the reference listing: header, then for each category in first-seen order its label and one line per first-named command, then the hint; characterised by `ListingShowsEveryCommand` |
| HelpCommands.DetailText | src/lib/BaseCommands/HelpCommand.ts:103-141 | the reference detail: title and description, aliases, usage, arguments, examples, category and cooldown, in that order; characterised by `DetailShowsEverySection` |
| HelpCommands.DetailReply | src/lib/BaseCommands/HelpCommand.ts:82-144 | the reply to `!help <name>`: the detail of the first registry value matching by name or alias, otherwise the not-found text |
| HelpCommands.AliasesSection | src/lib/BaseCommands/HelpCommand.ts:108-110 | empty exactly when there are no aliases, and otherwise starts with "**Aliases:** " |
| HelpCommands.ArgumentsSection | src/lib/BaseCommands/HelpCommand.ts:116-124 | empty exactly when there are no arguments, and otherwise starts with the Arguments heading |
| HelpCommands.ExamplesSection | src/lib/BaseCommands/HelpCommand.ts:127-133 | empty exactly when there are no examples, and otherwise starts with the Examples heading |
| HelpCommands.CooldownSection | src/lib/BaseCommands/HelpCommand.ts:139-141 | empty exactly when the cooldown is not positive |
| HelpCommands.HelpMetadata | src/lib/BaseCommands/HelpCommand.ts:13-26 | name "help", aliases "h" and "?", category "Utility", no cooldown, one optional argument "command", usage "help [<command>]" |
| HelpCommands.HelpCommand.constructor | src/lib/BaseCommands/HelpCommand.ts:12-29 | the help command's metadata, holding the registry it was given |
| HelpCommands.HelpCommand.Execute | src/lib/BaseCommands/HelpCommand.ts:31-43 | with no arguments the listing. Otherwise the detail reply for the lower-cased first argument. |
| HelpCommands.HelpCommand.ListAllCommands | src/lib/BaseCommands/HelpCommand.ts:45-80 | the reply is the listing text of the registry's values |
| HelpCommands.HelpCommand.ShowCommandHelp | src/lib/BaseCommands/HelpCommand.ts:82-144 | the reply is the detail of the first matching command, or the not-found text |
| HelpCommands.UniqueByName | src/lib/BaseCommands/HelpCommand.ts:47-53 | the loop keeps the first command of each name, in order |
| HelpCommands.GroupByCategory | src/lib/BaseCommands/HelpCommand.ts:56-64 | the map's keys are the labels in first-seen order, each holding exactly the commands of that label in order |
| HelpCommands.RenderListing | src/lib/BaseCommands/HelpCommand.ts:66-77 | header, then each group's text, then the `!help <command>` hint |
| HelpCommands.AppendCommandLines | src/lib/BaseCommands/HelpCommand.ts:71-73 | one command line per member, in order |
| HelpCommands.AppendAliases | src/lib/BaseCommands/HelpCommand.ts:108-110 | appends the aliases section |
| HelpCommands.AppendArguments | src/lib/BaseCommands/HelpCommand.ts:116-124 | appends the arguments section |
| HelpCommands.AppendExamples | src/lib/BaseCommands/HelpCommand.ts:127-133 | appends the examples section |
| HelpCommands.AppendCooldown | src/lib/BaseCommands/HelpCommand.ts:139-141 | appends the cooldown section |
| HelpCommands.DetailMessage | src/lib/BaseCommands/HelpCommand.ts:104-141 | the method builds exactly the detail text |
| HelpCommands.DetailReplyAt | src/lib/BaseCommands/HelpCommand.ts:89-101 | when command i is the first to match, the reply is its detail text |
| HelpCommands.DetailReplyNotFound | src/lib/BaseCommands/HelpCommand.ts:96-101 | with no match the reply is the not-found text |
| HelpCommands.ListingNamesEachCommandOnce | src/lib/BaseCommands/HelpCommand.ts:47-53 | the de-duplicated list names each command once, covers every name in the registry, and keeps the first command of each name |
| HelpCommands.GroupsPartitionCommands | src/lib/BaseCommands/HelpCommand.ts:56-64 | group labels are distinct and non-empty, and each is some command's label. Each command sits in exactly the group of its label. |
| HelpCommands.ListingShowsEveryCommand | src/lib/BaseCommands/HelpCommand.ts:66-77 | the listing starts with the header, ends with the hint, and shows every de-duplicated command's line |
| HelpCommands.DetailShowsEverySection | src/lib/BaseCommands/HelpCommand.ts:104-141 | the detail starts with its heading and contains the usage, category, aliases, arguments, examples and cooldown sections |
| HelpCommands.DetailSectionOrder | src/lib/BaseCommands/HelpCommand.ts:104-141 | the sections come in the source's order: the usage line lies after the opening and before the category line, and the detail ends with the category line followed by the cooldown section, so without a cooldown the category line is last |

## Left out

- Asynchrony is not modelled. Promises, fire-and-forget handlers and un-awaited validators
  all become synchronous calls. A validator's answer is an oracle `Verdict`, and a thrown
  error is the `Throw` verdict.
- The logger is left out; it only writes text.
- Service registration, `lifecycle.start`, `onStarting`, `onReady` and `process.exit` are
  left out; they are platform lifecycle. Start-up failure is the `exited` result of
  `Initialize`.
- The constructor does not call `Initialize`. In the source it starts `initialize` without
  awaiting it, so the model exposes it as a separate call.
- `require`, constructor invocation and `instanceof` are left out. A module is given by what
  it exports (`ModuleLoad`).
- Node's `readdir` is a finite map from path to entries, and a path missing from it is
  unreadable. `join` concatenates with "/", and `resolve` is the identity.
- FileLoading.PathJoin: paths are not normalized (no "..", no repeated separators).
- FileLoading.NormalizeDirs: a single directory string is modelled as a one-element list.
- `existsSync` and `__filename` are left out. They become the `Startup` record of `cwd`,
  existing paths and whether the code runs from `dist`.
- ServerApp.ChooseBaseDir: when neither `dist` nor `src` exists, the contract allows either;
  the code then takes `src`. An empty-string option counts as absent, as JavaScript's
  truthiness test does.
- ServerApp.MergedLoaderOptions: a spread field whose value is explicitly `undefined` is
  treated as absent.
- RootCommands.NewCommand: cooldowns are whole seconds; fractional values such as 1.5, which
  the source's `number` allows in the gate and prints as "1.5s" in the help detail, are not
  modelled.
- Strings.ToLower: only ASCII capitals are lowered; Unicode case mapping is left out.
- Strings.Trim: the white-space class is the fixed list of code points JavaScript's `\s`
  names. Surrogate pairs are not modelled.
- RootCommands.UsageShape: it assumes the command name has no white space at either end.
  Otherwise `trim` also cuts into the name, which this lemma does not describe.
- Command, event and job context objects (helpers, `rootServer`, the merged reply object)
  are left out. So is the mismatch between the context the facade builds and the one
  `HelpCommand` reads. `HelpCommand.Execute` returns its reply text.
- A validator's own replies are left out (for example echo's "Please provide a message").
  Executor replies are recorded in the outbox through `ExecOutcome`.
- ServerApp.RDXServerApp.OnJobFired: the job context it builds (`jobTime`,
  `jobScheduleId`) is left out. Only the match and the validator gate are modelled.
- The SDK's enum objects are external. Their values are those of the repository's test
  setup (tests/setup.ts:59-100).
- The getters `getCommands`, `getEvents`, `getJobs` and `getCommandPrefix` are left out;
  each returns a field of the model as it is.
- The facade's `on` is left out; it forwards to the platform.
- The event helpers (`EventHelpers`, the channel-id fallback) are left out; they are
  platform wrappers.
- packages/create-rdx (the scaffolding CLI), the example services and the client template
  are not part of this model.
