# regmsg, modelled in Dafny

regmsg is a display-configuration daemon (with a game-controller table) for
Linux. Clients send one text line over a local message socket, and the daemon
answers with one text line. This project models the parts of regmsg that
decide what gets sent and what gets answered, and proves properties of
them:

- **The daemon's request path.**
  - `DaemonServer` checks the incoming frame: it must be present, at most 1 MiB and valid UTF-8.
  - `CommandRegistry::handle` splits the line into whitespace tokens, looks up the first one and enforces the handler's arity.
  - The four handler kinds run, over the eighteen commands `init_commands` registers.
  - `format_response` renders the outcome, and `send_reply` tries the send at most three times.
- **The older dispatcher** `handle_command`, with its wrappers.
- **Both `RegmsgError` types**, with their `Display` texts, `Clone` and `From` conversions.
- **Both screen layers.** The daemon's `screen/mod.rs` and the older `src/screen/mod.rs` parse mode strings, check rotations and handle the "max-" prefix. They render the query texts and pick the backend.
- **Both Wayland backends.** They read sway outputs and build the IPC commands for modes, outputs, rotation, the maximum resolution and touch mapping.
- **`BackendManager`**.
- **The SDL game-controller table.** It parses mapping strings, searches the line-oriented database and holds up to eight entries.
- **The two clients' request builders**: the Rust CLI's `handle_command` and the C++ client's `parse_cli`/`build_command`.
- **The DRM hook**, which rewrites the PREFERRED flag across a connector's mode array in place.

State the source changes in place is modelled imperatively:

- the command table and `DaemonServer` are classes;
- the controller table is a class holding a `map`;
- the connector's modes are an `array`;
- the client request strings are built in loops.

Each of these methods is proved against a function that states its result. Pure decision logic becomes datatypes, functions and lemmas. Rust's
string library pieces the code depends on (`split_whitespace`, `split`,
`join`, `trim`, `parse::<u32/i32/usize>`, `String::from_utf8`) are modelled
in `text.dfy` and `utf8.dfy`, with their own round-trip lemmas.

Things outside the program are parameters of the model:

- the compositor's outputs and its replies to each command;
- the socket's answer to each send attempt;
- the database files;
- the environment;
- the mode file the hook reads.

Behaviours the model reproduces as the code has them:

- **No `--screen` extraction.** The daemon never extracts `--screen`: tokens are positional, so `setMode 1920x1080 --screen HDMI-1` passes "--screen" as the screen.
- **Duplicate names.** Registering a name twice replaces the handler silently; it does not fail.
- **Reply texts.** The texts are the code's, for example "Error: Unknown command: frobnicate" and "Error: Invalid arguments: setOutput expects 1 arguments, got 0".
- **Execution errors.** An execution error renders as "Error: " followed by the inner message.

Files:

- **Shared pieces.** `wrappers.dfy` holds Option and Result. `text.dfy` and `utf8.dfy` hold the string library.
- **Errors.** `regmsg_error.dfy` holds both error types.
- **Request path.** `command_registry.dfy`, `commands.dfy`, `command_handler.dfy`, `response_handler.dfy` and `server.dfy`.
- **Screen layers and backends.** `backend.dfy`, `daemon_screen.dfy`, `sway.dfy`, `daemon_wayland.dfy`, `legacy_screen.dfy` and `legacy_wayland.dfy`.
- **Controller table.** `controllerdb.dfy`.
- **Clients and hook.** `cli.dfy`, `regmsg_cpp.dfy` and `drmhook.dfy`.

## Model

| member | source | states |
|---|---|---|
| UtilsError.Display | src/bin/daemon/utils/error.rs:10-41 | each variant's text is its fixed prefix followed by its payload, and a backend error reads "Backend error <backend>: <message>" |
| UtilsError.Clone | src/bin/daemon/utils/error.rs:43-73 | `clone` copies every variant except an I/O error, which becomes the system error "I/O Error" |
| UtilsError.From | src/bin/daemon/utils/error.rs:23-103 | the conversions (the `#[from]` I/O attribute at lines 23-24 and the `From` impls at lines 75-103) map integer and date parse errors to parse errors, UTF-8 errors to conversion errors, TOML errors to system errors and I/O errors to I/O errors, and nothing else to each |
| UtilsError.CloneStable | src/bin/daemon/utils/error.rs:43-73 | cloning twice is cloning once; a clone displays like the original except that a cloned I/O error reads "System error: I/O Error" |
| UtilsError.DisplayInjective | src/bin/daemon/utils/error.rs:10-41 | the prefixes differ, so the text of any error other than a backend error identifies its variant and its payload |
| UtilsError.BackendDisplayAmbiguous | src/bin/daemon/utils/error.rs:12-16 | a backend error's text does not determine its two fields, because ": " may occur inside the backend name |
| UtilsError.ParseIntDisplay | src/bin/daemon/utils/error.rs:75-79 | a converted integer parse error reads "Parse error: " followed by the standard library's message |
| DaemonError.AgreesWithUtils | src/bin/daemon/error.rs:10-71 | the daemon's error type has the same variants, texts and conversions as the utilities' one |
| DaemonError.IoDisplay | src/bin/daemon/error.rs:23-24 | an I/O error keeps its message through the conversion and displays as "I/O error: <message>" |
| Backend.Active | src/bin/daemon/screen/backend.rs:100-102 | the active backend is the first one in the list, and there is none exactly when the list is empty |
| Backend.ActiveIsFirstAdded | src/bin/daemon/screen/backend.rs:95-102 | the first backend added stays the active one whatever is added after it |
| Backend.ActiveKeptByAdd | src/bin/daemon/screen/backend.rs:95-102 | adding a backend to a non-empty list does not change the active backend |
| Backend.BackendManager.constructor | src/bin/daemon/screen/backend.rs:88-92 | `new` starts with no backend |
| Backend.BackendManager.AddBackend | src/bin/daemon/screen/backend.rs:95-97 | `add_backend` appends the backend and leaves the earlier ones in place |
| Backend.BackendManager.GetActiveBackend | src/bin/daemon/screen/backend.rs:100-102 | `get_active_backend` returns the first backend, or none for an empty manager |
| Backend.ManagerScenario | src/bin/daemon/screen/backend.rs:165-173 | a fresh manager has no active backend; after adding two, the active one is the first added |
| Text.WordLength | src/bin/daemon/server/command_registry.rs:119 | the first word of a text is its longest whitespace-free prefix: every character before it is non-whitespace and the next one, if any, is whitespace |
| Text.SplitWhitespace | src/bin/daemon/server/command_registry.rs:119 | `split_whitespace` yields only non-empty tokens without whitespace |
| Text.SplitWhitespaceEmpty | src/bin/daemon/server/command_registry.rs:119-122 | a line yields no tokens if and only if it is all whitespace |
| Text.SplitWhitespaceWord | src/bin/daemon/server/command_registry.rs:119 | a non-empty run without whitespace is a single token |
| Text.SplitWhitespaceConcat | src/bin/daemon/server/command_registry.rs:119 | the tokens of two texts joined by a whitespace character are the tokens of the first followed by those of the second |
| Text.SplitWhitespaceJoin | src/bin/daemon/server/command_registry.rs:119 | tokens joined by single spaces split back into the same tokens |
| Text.JoinSnoc | src/bin/daemon/server/command_registry.rs:163 | joining one more part appends the separator and the part |
| Text.JoinAppend | src/bin/cli/main.rs:126-130 | joining two lists of parts is joining each and putting the separator between them |
| Text.ConcatEmpty | src/screen/wayland.rs:225-237 | parts run together are empty exactly when every part is empty |
| Text.Split | src/bin/daemon/screen/mod.rs:52 | `split` on a set of separators yields one more piece than there are separators, and no piece holds a separator |
| Text.JoinSplit | src/bin/daemon/controller/controllerdb.rs:38 | splitting on a character and joining the pieces with that character gives back the text |
| Text.SplitJoin | src/bin/daemon/controller/controllerdb.rs:38 | pieces free of a character, joined with it and split on it, come back unchanged |
| Text.SplitConcat | src/bin/daemon/screen/mod.rs:52 | a separator-free head followed by a separator is the first piece, and the rest splits on its own |
| Text.SplitAvoiding | src/bin/daemon/screen/mod.rs:52 | a text without separators is a single piece |
| Text.JoinStartsWith | src/bin/daemon/server/command_registry.rs:163 | a join begins with its first part |
| Text.SortedSet | src/bin/daemon/server/command_registry.rs:156-157 | sorting the registered names by key gives every name exactly once, in strictly ascending byte order |
| Text.TrimStart | src/bin/daemon/server/commands.rs:185-186 | `trim_start` drops exactly the leading whitespace: the result is a suffix that does not start with whitespace and all that was dropped is whitespace |
| Text.TrimEnd | src/bin/daemon/server/commands.rs:185-186 | `trim_end` drops exactly the trailing whitespace: the result is a prefix that does not end with whitespace and all that was dropped is whitespace |
| Text.TrimFacts | src/bin/daemon/server/commands.rs:185-186 | `trim` leaves a text without surrounding whitespace unchanged, and is empty if and only if the text is all whitespace |
| Text.TrimStartMatches | src/bin/daemon/screen/mod.rs:245 | `trim_start_matches` returns a suffix of the text that no longer starts with the (non-empty) pattern |
| Text.FindFirst | src/bin/daemon/controller/controllerdb.rs:51 | `find` returns the index of the first occurrence of the pattern, and None exactly when it does not occur |
| Text.AsU32 | src/bin/daemon/screen/mod.rs:250-252 | `as u32` on an `i32` keeps non-negative values and adds 2^32 to negative ones |
| Text.AsI32 | src/bin/daemon/screen/wayland.rs:272 | `as i32` on a `u32` keeps values up to 2^31 - 1 and subtracts 2^32 from larger ones |
| Text.CastsRoundTrip | src/bin/daemon/screen/wayland.rs:272 | the two casts undo each other in both directions |
| Text.ParseInteger | src/bin/daemon/screen/mod.rs:60-72 | `str::parse` for an integer type fails with the empty-string error if and only if the text is empty, and any value it returns lies in the type's range |
| Text.ParseDigits | src/bin/daemon/screen/mod.rs:60-72 | the digit loop returns only values in the type's range and never the empty-string error |
| Text.ParseU32 | src/bin/daemon/screen/mod.rs:297 | `parse::<u32>` returns only values from 0 to 2^32 - 1 |
| Text.ParseI32 | src/bin/daemon/screen/mod.rs:60-72 | `parse::<i32>` returns only values from -2^31 to 2^31 - 1 |
| Text.ParseUsize | src/bin/daemon/server/commands.rs:189 | `parse::<usize>` returns only values from 0 to 2^64 - 1 |
| Text.NatToStringValue | src/bin/daemon/screen/mod.rs:99-113 | the decimal text of a number reads back as that number |
| Text.ParseNatToString | src/bin/daemon/screen/mod.rs:60-72 | parsing the decimal text of an in-range number gives that number |
| Text.ParseDigitsValue | src/bin/daemon/screen/mod.rs:60-72 | on a digit string the digit loop succeeds with the string's value exactly when that value fits |
| Utf8.ScanFirst | src/bin/daemon/server/server.rs:229 | one step of UTF-8 validation either reads a character of 1 to 4 bytes that fit in the input, or reports a bad sequence of 1 to 3 bytes (or none, when the input ends mid-sequence) |
| Utf8.FromUtf8 | src/bin/daemon/server/server.rs:229-238 | `String::from_utf8` on failure reports a valid prefix that ends inside the input |
| Utf8.EncodeChar | src/bin/daemon/server/server.rs:229 | a character is encoded in 1 to 4 bytes |
| Utf8.ScanEncodeChar | src/bin/daemon/server/server.rs:229 | validation reads an encoded character back as that character and its width, whatever follows it |
| Utf8.FromUtf8Encode | src/bin/daemon/server/server.rs:229-233 | the bytes of any text pass `from_utf8` and decode to that text |
| Utf8.NotEncodingOnError | src/bin/daemon/server/server.rs:234-237 | bytes that `from_utf8` rejects are the encoding of no text |
| CommandRegistry.Pass | src/bin/daemon/server/command_registry.rs:217-220 | a text-returning executor's success is the reply text verbatim, and its error becomes `ExecutionError` carrying the error unchanged; the same wrapping as CommandHandler.WithResult, in the registry's dispatcher |
| CommandRegistry.Lift | src/bin/daemon/server/command_registry.rs:246-249 | a unit-returning executor's success becomes the fixed confirmation, and its error becomes `ExecutionError` carrying the error unchanged; the same wrapping as CommandHandler.WithUnitResult, in the registry's dispatcher |
| CommandRegistry.Execute | src/bin/daemon/server/command_registry.rs:215-310 | each handler kind's `execute`: a simple command is its runner's outcome; an argument command succeeds exactly when its runner does, answering "<name> executed successfully"; a screen command runs on the first argument as the screen, or on none; a screen setter refuses an empty argument list with "Missing required argument", runs with no screen on exactly one argument and with the second argument as the screen otherwise, answering "Set to <value>"; every executor error is passed through as `ExecutionError` |
| CommandRegistry.Handle | src/bin/daemon/server/command_registry.rs:116-147 | `handle`: the result is the empty-command error exactly when the line has no words, the unknown-command error exactly when the first word is not registered (and it carries that word), and otherwise the registered handler's result after the arity check |
| CommandRegistry.HandleTokens | src/bin/daemon/server/command_registry.rs:116-147 | a request built by joining a name and its arguments with spaces is handled as that name applied to exactly those arguments |
| CommandRegistry.HandleBlank | src/bin/daemon/server/command_registry.rs:118-122 | a line is refused as an empty command exactly when it is all whitespace |
| CommandRegistry.ArityEnforced | src/bin/daemon/server/command_registry.rs:127-136 | a handler with an expected argument count that receives another count fails with "<cmd> expects <n> arguments, got <m>" before it runs |
| CommandRegistry.RegisterKeepsOthers | src/bin/daemon/server/command_registry.rs:100-104 | registering a name does not change how a line naming any other command is handled |
| CommandRegistry.ScreenCommandFirstOnly | src/bin/daemon/server/command_registry.rs:271-282 | a screen command reads at most its first argument: arguments after the first change nothing |
| CommandRegistry.ScreenSetterFirstTwo | src/bin/daemon/server/command_registry.rs:296-312 | a screen setter reads only its first two arguments (the value, then the screen): arguments after the second change nothing |
| CommandRegistry.Describe | src/bin/daemon/server/command_registry.rs:155-164 | the listing covers exactly the registered names |
| CommandRegistry.DescribeRegister | src/bin/daemon/server/command_registry.rs:100-104 | registering a handler changes the listing only at that name, to that handler's description |
| CommandRegistry.ListCommands | src/bin/daemon/server/command_registry.rs:155-164 | `list_commands` returns the empty string exactly when nothing is registered, by ListingEmpty |
| CommandRegistry.ListingEmpty | src/bin/daemon/server/command_registry.rs:155-164 | the listing built from a name-to-description map is empty exactly when the map is; ListCommands rests on it |
| CommandRegistry.ListingLines | src/bin/daemon/server/command_registry.rs:155-164 | the listing split at newlines is one "name: description" line per registered name, in ascending name order |
| CommandRegistry.LinesAvoid | src/bin/daemon/server/command_registry.rs:155-164 | no listing line contains a newline, so the lines can be recovered |
| CommandRegistry.LinesAt | src/bin/daemon/server/command_registry.rs:155-164 | line i of the listing is the i-th name in order followed by ": " and its description |
| CommandRegistry.Registry.constructor | src/bin/daemon/server/command_registry.rs:89-93 | `new` starts with an empty table |
| CommandRegistry.Registry.Register | src/bin/daemon/server/command_registry.rs:100-104 | `register` inserts or replaces the handler under the name and leaves every other entry as it was |
| Commands.NameInjective | src/bin/daemon/server/commands.rs:26-243 | the eighteen registered command names are pairwise different, so no registration replaces an earlier one |
| Commands.NamesDistinct | src/bin/daemon/server/commands.rs:26-243 | the same, for all pairs of commands at once |
| Commands.Position | src/bin/daemon/server/commands.rs:26-243 | every command has a place among the eighteen `register` calls of `init_commands`, and that place holds the command |
| Commands.DescribeBuild | src/bin/daemon/server/commands.rs:26-243 | the descriptions listed for the table built by a series of registrations are those of the registered commands, the last one winning per name |
| Commands.BuildStep | src/bin/daemon/server/commands.rs:26-243 | each `register` call in the series extends the table by exactly that command's handler |
| Commands.BuildLookup | src/bin/daemon/server/commands.rs:26-243 | a command's name is in the built table exactly when the command was registered, and it then maps to a handler of that command's kind |
| Commands.BuildDescription | src/bin/daemon/server/commands.rs:26-243 | a registered command's handler carries the description given to it |
| Commands.BuildKeys | src/bin/daemon/server/commands.rs:26-243 | every key of the built table is the name of a registered command |
| Commands.EntriesWellFormed | src/bin/daemon/server/commands.rs:145-228 | each argument-command closure reads only arguments that its declared count guarantees exist |
| Commands.BuildWellFormed | src/bin/daemon/server/commands.rs:145-228 | every handler of a built table is well formed in that sense |
| Commands.AllRegistered | src/bin/daemon/server/commands.rs:23-246 | every command is among those `init_commands` registers |
| Commands.StandardTable | src/bin/daemon/server/commands.rs:23-246 | the table `init_commands` produces is well formed |
| Commands.InitCommands | src/bin/daemon/server/commands.rs:23-246 | `init_commands` returns a fresh registry whose table holds every command under its name with its description |
| Commands.StandardLookup | src/bin/daemon/server/commands.rs:23-246 | in that table each command's name maps to a handler of its kind |
| Commands.StandardKeys | src/bin/daemon/server/commands.rs:23-246 | the registered names are exactly the eighteen command names |
| Commands.StandardDescription | src/bin/daemon/server/commands.rs:23-246 | each handler carries the description written beside its registration |
| Commands.Request | src/bin/daemon/server/commands.rs:23-246 | a request whose words are a command's name and then its arguments is handled with the outcome that command's group prescribes |
| Commands.EntryRuns | src/bin/daemon/server/command_registry.rs:127-147 | past the registry's arity check, each command's handler yields that prescribed outcome |
| Commands.SimpleRejectsArguments | src/bin/daemon/server/commands.rs:26-85 | a command without arguments refuses any extra word with the arity error and otherwise passes its screen or controller result |
| Commands.ScreenQueryUsesFirstToken | src/bin/daemon/server/commands.rs:87-135 | the screen queries take the first word after the name as the screen and ignore the rest |
| Commands.FixedArity | src/bin/daemon/server/commands.rs:145-228 | setOutput and removeController take exactly one argument and addController exactly two; any other count is refused before the closure runs |
| Commands.SetRotationChecksValue | src/bin/daemon/server/commands.rs:156-172 | setRotation refuses any value other than 0, 90, 180 or 270 with "Invalid rotation: '<value>'. Valid options are: 0, 90, 180, 270" and hands an allowed value to the screen layer |
| Commands.SetModeForwards | src/bin/daemon/server/commands.rs:137-143 | setMode without a value is refused with "Missing required argument"; otherwise the first word is the mode, the second the optional screen |
| Commands.AddControllerChecks | src/bin/daemon/server/commands.rs:184-199 | addController trims both arguments, refuses an index that is not an unsigned integer with "Invalid index: <index>. Index must be a positive integer.", then an empty GUID with "GUID cannot be empty.", and only then adds the controller |
| Commands.AddControllerOutcome | src/bin/daemon/server/commands.rs:178-201 | a successful addController answers "addController executed successfully" |
| Commands.Confirmations | src/bin/daemon/server/commands.rs:63-135 | getScreenshot, mapTouchScreen and minToMaxResolution answer with their fixed confirmations; getController answers "No controllers configured" for the empty object |
| Commands.ListCommandsReply | src/bin/daemon/server/commands.rs:26-32 | listCommands answers with the listing of the table `init_commands` builds |
| CommandHandler.HandleCommand | src/bin/daemon/server/command_handler.rs:94-163 | `handle_command` answers an empty command exactly for a line with no word, an unknown command carrying the whole line exactly when the first word has no arm for its argument count |
| CommandHandler.WithResult | src/bin/daemon/server/command_handler.rs:173-181 | `execute_command_with_result` succeeds exactly when the function does, with its text verbatim, and wraps its error unchanged as an execution error |
| CommandHandler.WithUnitResult | src/bin/daemon/server/command_handler.rs:191-199 | `execute_command_with_unit_result` succeeds exactly when the function does, with the fixed success message, and wraps its error unchanged as an execution error |
| CommandHandler.WithArgResult | src/bin/daemon/server/command_handler.rs:211-240 | `execute_command_with_arg_result` refuses an empty argument with "<cmd> requires an argument" before calling the function; otherwise it succeeds exactly when the function does, with the filled template, and wraps its error unchanged as an execution error |
| CommandHandler.Match | src/bin/daemon/server/command_handler.rs:115-163 | the dispatch on the first word: the empty-command error exactly for an empty word, the unknown-command error, carrying the whole line, exactly for a word with no arm at that argument count, and an argument refusal only for a setter whose single argument is empty |
| CommandHandler.WrappersOwnErrors | src/bin/daemon/server/command_handler.rs:173-240 | the three execute wrappers fail only with an execution error, except the argument wrapper's refusal of an empty argument |
| CommandHandler.EmptyLine | src/bin/daemon/server/command_handler.rs:112-113 | `handle_command` reports an empty command exactly for an all-whitespace line |
| CommandHandler.UnknownCarriesLine | src/bin/daemon/server/command_handler.rs:162 | for a first word with no arm, the error carries the whole line, not only the word |
| CommandHandler.SettersTakeOneArgument | src/bin/daemon/server/command_handler.rs:139-156 | setMode, setOutput and setRotation with no argument or with more than one are unknown commands |
| CommandHandler.MinToMaxSpelling | src/bin/daemon/server/command_handler.rs:133-136 | only the spelling "minTomaxResolution" is dispatched; the daemon's registered spelling "minToMaxResolution" is unknown to this handler |
| CommandHandler.QueriesIgnoreArguments | src/bin/daemon/server/command_handler.rs:117-124 | each of the eight queries (listModes, listOutputs, currentMode, currentOutput, currentResolution, currentRotation, currentRefresh, currentBackend) runs its screen function, with no screen where it takes one, whatever words follow its name |
| CommandHandler.UnitMessages | src/bin/daemon/server/command_handler.rs:127-136 | the unit commands answer "Screenshot taken", "Touchscreen mapped" and "Resolution set to max", and pass a failure on as an execution error |
| CommandHandler.SetModeReply | src/bin/daemon/server/command_handler.rs:139-144 | `setMode <m>` calls the screen layer with no screen and answers "Mode set to <m>" on success |
| CommandHandler.NoEmptyArgumentRefusal | src/bin/daemon/server/command_handler.rs:220-225 | a whitespace-split word is never empty, so the "requires an argument" refusal cannot be reached from `handle_command` |
| CommandHandler.FillFirstPlaceholder | src/bin/daemon/server/command_handler.rs:232-233 | a success template with a placeholder gets the argument in place of its first "{}" |
| CommandHandler.FillWithoutPlaceholder | src/bin/daemon/server/command_handler.rs:234-236 | a template without a placeholder gets a space and the argument appended |
| ResponseHandler.FormatResponse | src/bin/daemon/server/response_handler.rs:10-16 | a success is sent as its text; any failure is "Error: " followed by the error's message, the raw message for an execution error and the displayed error otherwise |
| ResponseHandler.ErrorReplies | src/bin/daemon/server/response_handler.rs:14 | the replies for the dispatch's own errors are "Error: Invalid arguments: …", "Error: Unknown command: …" and "Error: Empty command" |
| ResponseHandler.ExecutionErrorSkipsDisplay | src/bin/daemon/server/response_handler.rs:13 | an execution error's reply leaves out the "Execution error: " prefix its display would add |
| ResponseHandler.RepliesAmbiguous | src/bin/daemon/server/response_handler.rs:10-16 | the reply does not tell the cases apart: an execution error whose text starts "Invalid arguments: " reads like an argument error, and a success text starting "Error: " reads like a failure |
| Server.ExtractCommand | src/bin/daemon/server/server.rs:214-238 | a message without a frame is refused with "Received empty message", a first frame longer than 1 MiB with "Message too large: <n> bytes (max: 1048576)", one that is not UTF-8 with "Invalid UTF-8 message: …"; the command is accepted exactly when none of these applies, and is then the decoded frame |
| Server.FormatResponse | src/bin/daemon/server/server.rs:252-267 | a success is sent as its text and every failure as a reply starting "Error: " |
| Server.MaxSizeText | src/bin/daemon/server/server.rs:25 | the limit shown in the refusal is 1048576 |
| Server.FormatAgrees | src/bin/daemon/server/server.rs:252-267 | the server's renderer and `format_response` of the response module give the same reply for corresponding results |
| Server.FirstAccepted | src/bin/daemon/server/server.rs:283-305 | the first attempt the socket accepts, if any: every earlier attempt failed |
| Server.Copies | src/bin/daemon/server/server.rs:283-292 | each attempt hands the same reply to the socket |
| Server.SendBounds | src/bin/daemon/server/server.rs:280-308 | `send_reply` makes between one and three attempts; it succeeds exactly when one of the first three is accepted, stopping at the first accepted one; otherwise it made all three and returns the third one's error |
| Server.AcceptedPrefix | src/bin/daemon/server/server.rs:283-292 | once an attempt is accepted no later attempt is made |
| Server.Reply | src/bin/daemon/server/server.rs:176-200 | `process_message` answers a refused frame with "Error: " and the refusal, a successful request with the handler's text alone, and a failed request with a reply starting "Error: " |
| Server.EmptyMessageReply | src/bin/daemon/server/server.rs:215-218 | a message without a frame is answered "Error: Received empty message" without consulting the registry |
| Server.TooLargeReply | src/bin/daemon/server/server.rs:220-227 | a frame longer than the limit is answered with its length and the limit |
| Server.TextAccepted | src/bin/daemon/server/server.rs:195-199 | the bytes of any text of at most the limit are accepted as the command, and the reply is the rendered outcome of that text |
| Server.RequestReply | src/bin/daemon/server/server.rs:176-200 | end to end, a request line naming a command is answered with the rendered outcome its group prescribes in the table `init_commands` builds |
| Server.DaemonServer.constructor | src/bin/daemon/server/server.rs:54-95 | `DaemonServer::new` holds the registry `init_commands` builds, and nothing has been sent |
| Server.DaemonServer.SendReply | src/bin/daemon/server/server.rs:280-308 | the loop hands the reply to the socket once per attempt, as many times as `Attempts` says, and returns `SendOutcome` |
| Server.DaemonServer.ProcessMessage | src/bin/daemon/server/server.rs:176-200 | `process_message` sends exactly the one reply `Reply` gives (a refusal of a bad frame, or the rendered outcome of the line) as `send_reply` does, and returns the send's outcome |
| DaemonScreen.ParseMode | src/bin/daemon/screen/mod.rs:50-82 | `parse_mode` splits at 'x' and '@' and refuses any count of pieces but two or three with "Invalid mode format. Use 'WxH@R' or 'WxH'"; it succeeds exactly when every piece reads as a 32-bit signed integer, and then holds the width, the height and the refresh read (60 when there are two pieces); otherwise the first piece that does not read decides the error: "Invalid width", "Invalid height" or "Invalid refresh rate" |
| DaemonScreen.ParseModeText | src/bin/daemon/screen/mod.rs:50-82 | a rendered "WxH@R" reads back as its three values |
| DaemonScreen.ParseResolutionText | src/bin/daemon/screen/mod.rs:67-74 | a rendered "WxH" reads back as its values with refresh 60 |
| DaemonScreen.ZeroMode | src/bin/daemon/screen/mod.rs:50-82 | zero values are accepted: "0x0@0" is the mode (0, 0, 0) |
| DaemonScreen.ExtraPieceRefused | src/bin/daemon/screen/mod.rs:53-58 | a fourth piece makes the mode a format error |
| DaemonScreen.BareNumberRefused | src/bin/daemon/screen/mod.rs:53-58 | a bare number is one piece and a format error |
| DaemonScreen.WidthCheckedFirst | src/bin/daemon/screen/mod.rs:61-66 | when the width does not parse the error is "Invalid width", whatever the height |
| DaemonScreen.NegativeWidthWraps | src/bin/daemon/screen/mod.rs:248-252 | a negative width is accepted by the parser and becomes 4294967295 when cast to the unsigned mode parameters |
| DaemonScreen.SetMode | src/bin/daemon/screen/mod.rs:241-260 | `set_mode`: a mode starting "max-" is handed, without that prefix, to the backend's maximum-resolution call; otherwise a parse error is returned before the backend is reached, and a parsed mode is applied with its values cast to unsigned |
| DaemonScreen.SetModeParseFirst | src/bin/daemon/screen/mod.rs:247-252 | a mode that does not parse fails the same way whatever the backend |
| DaemonScreen.SetModeOfCurrent | src/bin/daemon/screen/mod.rs:149-157 | the current mode the daemon reports can be set again as it is |
| DaemonScreen.SetOutput | src/bin/daemon/screen/mod.rs:268-280 | `set_output` parses the mode and applies it with no screen named |
| DaemonScreen.SetOutputIsSetModeOnAll | src/bin/daemon/screen/mod.rs:268-280 | for a mode without the "max-" prefix, `set_output` is `set_mode` on all screens |
| DaemonScreen.RotationValue | src/bin/daemon/screen/mod.rs:293-309 | a rotation is accepted exactly when it reads as an unsigned integer among 0, 90, 180 and 270; otherwise it is refused with "Invalid rotation: '<value>'. Must be a number" or "Rotation must be one of: 0, 90, 180, 270" |
| DaemonScreen.SetRotation | src/bin/daemon/screen/mod.rs:293-316 | `set_rotation` hands the checked angle to the backend |
| DaemonScreen.RotationsAccepted | src/bin/daemon/screen/mod.rs:304 | each of the four angles reaches the backend unchanged |
| DaemonScreen.RejectedRotationSkipsBackend | src/bin/daemon/screen/mod.rs:297-309 | a refused rotation fails with an argument error before the backend is reached |
| DaemonScreen.Rotation45Refused | src/bin/daemon/screen/mod.rs:304-309 | 45 is a number but not an accepted angle |
| DaemonScreen.ModeLines | src/bin/daemon/screen/mod.rs:99-113 | one "WxH@R:name WxH@RHz" line per mode, in the backend's order |
| DaemonScreen.OutputNames | src/bin/daemon/screen/mod.rs:130-133 | one line per output, its name |
| DaemonScreen.ListModes | src/bin/daemon/screen/mod.rs:95-117 | `list_modes` fails exactly when the backend does, with its error, and its text is empty exactly when the backend lists no mode |
| DaemonScreen.ListModesLines | src/bin/daemon/screen/mod.rs:95-117 | the `list_modes` text split at newlines gives back the mode lines, provided no mode name holds a newline |
| DaemonScreen.ListOutputs | src/bin/daemon/screen/mod.rs:126-137 | `list_outputs` fails exactly when the backend does, with its error; its text is empty when there is no output and otherwise starts with the first output's name |
| DaemonScreen.ListOutputsLines | src/bin/daemon/screen/mod.rs:126-137 | the `list_outputs` text split at newlines gives back the output names, provided none holds a newline |
| DaemonScreen.FirstActive | src/bin/daemon/screen/mod.rs:170-173 | the first output that is connected and has a current mode; none when no output is active |
| DaemonScreen.CurrentOutput | src/bin/daemon/screen/mod.rs:166-177 | `current_output` answers the name of the active output that comes before every other active one in the backend's list, answers "No active output" when there is none, and passes on the backend's error |
| DaemonScreen.CurrentMode | src/bin/daemon/screen/mod.rs:149-157 | `current_mode` fails exactly when the backend does, with its error, and its "WxH@R" reads back through `parse_mode` as the backend's mode when width, height and refresh fit in i32 |
| DaemonScreen.CurrentResolution | src/bin/daemon/screen/mod.rs:189-194 | `current_resolution` fails exactly when the backend does, with its error, and its "WxH" reads back through `parse_mode` as that size at refresh 60 when width and height fit in i32 |
| DaemonScreen.CurrentRefresh | src/bin/daemon/screen/mod.rs:206-211 | `current_refresh` is the backend's rate followed by "Hz", and fails exactly when the backend does |
| DaemonScreen.CurrentRotation | src/bin/daemon/screen/mod.rs:223-228 | `current_rotation` is the backend's angle in decimal, and fails exactly when the backend does |
| DaemonScreen.MinToMaxResolution | src/bin/daemon/screen/mod.rs:357-362 | `min_to_max_resolution` does exactly what `set_mode` does for "max-" followed by the default maximum resolution 1920x1080 |
| DaemonScreen.MapTouchScreen | src/bin/daemon/screen/mod.rs:341-345 | `map_touch_screen` succeeds exactly when the backend maps the touchscreen, and passes on its error |
| DaemonScreen.CurrentBackend | src/bin/daemon/screen/mod.rs:371-374 | `current_backend` never fails once a backend is chosen and answers that backend's name |
| DaemonScreen.GetScreenshot | src/bin/daemon/screen/mod.rs:326-331 | `get_screenshot` succeeds exactly when the backend saves the screenshot in the default directory, and passes on its error |
| Sway.SwayConnection.constructor | src/bin/daemon/screen/wayland.rs:109-116 | a connection reports the compositor's outputs and inputs and has sent nothing yet |
| Sway.SwayConnection.RunCommand | src/bin/daemon/screen/wayland.rs:290-296 | `run_command` records the command as sent and returns the compositor's reply to it |
| Sway.FormatRefresh | src/bin/daemon/screen/wayland.rs:23-31 | `format_refresh`: a value of at least 1000 is taken as mHz and shown as whole Hz, truncated; a smaller one is shown as it is, a negative one with its sign; no unit is added |
| Sway.FormatRefreshTruncates | src/bin/daemon/screen/wayland.rs:23-31 | 59940 mHz and 59000 mHz are both shown as 59; 60 and 60000 are both shown as 60 |
| Sway.FilterOutputs | src/bin/daemon/screen/wayland.rs:34-48 | `filter_outputs` keeps exactly the outputs named by the screen, or all of them when no screen is named, in their order |
| Sway.FilterNone | src/bin/daemon/screen/wayland.rs:34-48 | without a screen nothing is filtered out |
| Sway.FilterAppend | src/bin/daemon/screen/wayland.rs:34-48 | the filter works output by output, so filtering a concatenation concatenates the filtered parts |
| Sway.PreprocessOutputs | src/bin/daemon/screen/wayland.rs:15-20 | `preprocess_outputs` maps exactly the output names, each to an output of that name |
| Sway.PreprocessKeepsLast | src/bin/daemon/screen/wayland.rs:15-20 | when names repeat, the map keeps the last output with the name |
| Sway.Targets | src/bin/daemon/screen/wayland.rs:245-264 | the outputs `set_mode` visits: for a named screen its single output from the map, or a "not found" refusal exactly when no output has that name; with no screen every map entry once, in the map's order |
| Sway.TargetsCoverNames | src/bin/daemon/screen/wayland.rs:260-263 | with no screen named every output name is visited exactly once |
| Sway.FirstFocused | src/bin/daemon/screen/wayland.rs:408-410 | the first focused output; none exactly when no output is focused |
| Sway.MaxTarget | src/bin/daemon/screen/wayland.rs:406-410 | `set_max_resolution` targets the first output with the given name, or the first focused output when no screen is named |
| Sway.FirstTouch | src/bin/daemon/screen/wayland.rs:546-549 | `map_touchscreen` picks the identifier of the first input of type "touch"; none exactly when there is no such input |
| Sway.Run | src/bin/daemon/screen/wayland.rs:267-313 | the loop of `set_mode` and `set_rotation` over their targets: skipped outputs send nothing, and the loop stops at the first command whose reply is a failure |
| Sway.RunStops | src/bin/daemon/screen/wayland.rs:290-303 | once a command has failed no later output is looked at |
| Sway.RunSendsSteps | src/bin/daemon/screen/wayland.rs:267-296 | only outputs with a command cause a send, one command each, in order |
| Sway.RunNothing | src/bin/daemon/screen/wayland.rs:273-281 | when every output is skipped nothing is sent and nothing is applied |
| Sway.RunAllApplied | src/bin/daemon/screen/wayland.rs:267-313 | when every command goes through the loop succeeds, and something was applied exactly when some output had a command |
| Sway.RunSameSteps | src/bin/daemon/screen/wayland.rs:267-313 | two command choices that agree on the targets give the same loop |
| Sway.RunEverySent | src/bin/daemon/screen/wayland.rs:267-313 | when every target has a command and every command goes through, each target gets its command, in order |
| Sway.RunAll | src/bin/daemon/screen/wayland.rs:267-313 | the imperative loop over the connection sends exactly the commands `Run` says and returns its progress |
| DaemonWayland.TransformDegrees | src/bin/daemon/screen/wayland.rs:84-95 | a transform reads as 90, 180 or 270 exactly for its three spellings ("90", "90°", "rotated-90" and so on), and as 0 for anything else or for none |
| DaemonWayland.OtherTransformsAreZero | src/bin/daemon/screen/wayland.rs:92 | "normal" and the flipped transforms read as 0 |
| DaemonWayland.ToDisplayMode | src/bin/daemon/screen/wayland.rs:55-65 | a converted mode keeps width and height cast to unsigned, and its refresh is the rounded Hz value |
| DaemonWayland.ToDisplayModes | src/bin/daemon/screen/wayland.rs:52-66 | every mode of an output is converted, in order |
| DaemonWayland.ToDisplayOutput | src/bin/daemon/screen/wayland.rs:51-98 | a converted output keeps its name and modes, has a current mode exactly when sway reports one, is always connected, and has a rotation among 0, 90, 180 and 270 |
| DaemonWayland.ListOutputs | src/bin/daemon/screen/wayland.rs:119-135 | `list_outputs` converts every sway output, in order |
| DaemonWayland.AllModes | src/bin/daemon/screen/wayland.rs:147-148 | `flat_map` over the outputs yields exactly the modes that some output lists |
| DaemonWayland.AllModesAppend | src/bin/daemon/screen/wayland.rs:147-148 | the flattening keeps the outputs' order: the modes of two runs of outputs are the first run's followed by the second's |
| DaemonWayland.ListModes | src/bin/daemon/screen/wayland.rs:137-164 | `list_modes` gives the converted modes of the outputs that pass the screen filter, output after output; a mode is listed exactly when it is the conversion of a mode of some output that passes the filter |
| DaemonWayland.FirstCurrentMode | src/bin/daemon/screen/wayland.rs:176-191 | the current mode of the first output that has one |
| DaemonWayland.CurrentMode | src/bin/daemon/screen/wayland.rs:166-193 | `current_mode` is the current mode of the first passing output that has one, and fails with NotFound("Current mode") exactly when none has |
| DaemonWayland.CurrentResolution | src/bin/daemon/screen/wayland.rs:195-198 | `current_resolution` is the width and height of that mode, and fails when it does |
| DaemonWayland.CurrentRefreshRate | src/bin/daemon/screen/wayland.rs:200-203 | `current_refresh_rate` is the refresh of that mode, and fails when it does |
| DaemonWayland.CurrentRotation | src/bin/daemon/screen/wayland.rs:205-230 | `current_rotation` reads the transform of the first passing output, whether or not it has one, and is 0 when no output passes |
| DaemonWayland.RotationFromFirst | src/bin/daemon/screen/wayland.rs:215-227 | outputs after the first passing one do not change the rotation |
| DaemonWayland.SetMode | src/bin/daemon/screen/wayland.rs:233-322 | `set_mode` sends a mode command to each target that offers the width and height, stopping at the first failing command; the result is a not-found error for a missing named screen, the failing reply's error, an error for a named screen where nothing was applied, and otherwise success |
| DaemonWayland.MissingScreen | src/bin/daemon/screen/wayland.rs:248-256 | a named screen that is not there is refused with "Screen '<name>' not found" and nothing is sent |
| DaemonWayland.NamedScreenWithoutMode | src/bin/daemon/screen/wayland.rs:268-282 | a named screen that does not offer the width and height gets nothing sent, and the result is the "Failed to set mode … for specified screen" error |
| DaemonWayland.AllScreensWithoutMode | src/bin/daemon/screen/wayland.rs:312-321 | with no screen named, no output offering the mode is still a success, and nothing is sent |
| DaemonWayland.SetModeSendsOnlyOffered | src/bin/daemon/screen/wayland.rs:268-290 | every command sent is "output <name> mode WxH@RHz" for a target that offers the width and height |
| DaemonWayland.NamedScreenApplied | src/bin/daemon/screen/wayland.rs:245-310 | a named screen that offers the mode and accepts the command gets exactly that one command, and the result is a success |
| DaemonWayland.SetRotation | src/bin/daemon/screen/wayland.rs:325-367 | `set_rotation` refuses an angle outside 0, 90, 180 and 270 before sending anything; otherwise every passing output gets "output <name> transform <angle>", and the first failure ends the loop |
| DaemonWayland.RotationReachesEveryOutput | src/bin/daemon/screen/wayland.rs:343-364 | when every command goes through, every passing output gets exactly one transform command and the result is a success |
| DaemonWayland.ParseLimit | src/bin/daemon/screen/wayland.rs:370-392 | the limit is 1920x1080 when none is given; otherwise anything but two 'x'-separated pieces is a format error; a width that does not read as `u32` fails with "Failed to parse width: …", then a height with "Failed to parse height: …"; two values with a zero are refused as not positive, and two positive values are the limit |
| DaemonWayland.ParseSize | src/bin/daemon/screen/wayland.rs:378-389 | both values of an accepted limit are positive and are the values the two pieces read as |
| DaemonWayland.ParseLimitText | src/bin/daemon/screen/wayland.rs:370-392 | a limit written "{w}x{h}" with both values positive reads back as (w, h) |
| DaemonWayland.BestMode | src/bin/daemon/screen/wayland.rs:426-432 | the best mode fits the limit, has the largest area among the fitting modes, and is the last of them with that area, as `max_by_key` picks it; there is none exactly when no mode fits |
| DaemonWayland.SetMaxResolution | src/bin/daemon/screen/wayland.rs:369-470 | `set_max_resolution` returns a limit error without sending anything; otherwise it sends at most the one command for the best fitting mode of the target, and only when the target's current mode exceeds the limit |
| DaemonWayland.FittingModeKept | src/bin/daemon/screen/wayland.rs:418-424 | a target whose current mode already fits the limit is left alone |
| DaemonWayland.TieGoesToLast | src/bin/daemon/screen/wayland.rs:426-432 | of two fitting modes with the same area the later one is chosen |
| DaemonWayland.MapTouchscreen | src/bin/daemon/screen/wayland.rs:534-601 | `map_touchscreen` fails with "No touchscreen device found" when there is no touch input and with "No focused output found" when no output is focused, sending nothing in both cases; otherwise it sends "input <id> map_to_output <name>" and returns the reply's outcome |
| LegacyScreen.DetectBackend | src/screen/mod.rs:26-34 | `detect_backend` names "Wayland" exactly when WAYLAND_DISPLAY is set, and "KMS/DRM" otherwise |
| LegacyScreen.CurrentBackend | src/screen/mod.rs:380-384 | `current_backend` never fails and answers "Wayland" exactly when WAYLAND_DISPLAY is set |
| LegacyScreen.ParseMode | src/screen/mod.rs:54-80 | the library's `parse_mode` refuses any count of 'x'/'@' pieces but two or three with the format message; it succeeds exactly when every piece reads as a 32-bit signed integer, and then holds the width, height and refresh read (60 when there are two pieces); otherwise the first piece that does not read decides the message: "Invalid width", "Invalid height" or "Invalid refresh rate" |
| LegacyScreen.ParseModeAgrees | src/screen/mod.rs:54-80 | it accepts exactly the modes the daemon's `parse_mode` accepts, with the same values, and fails with the same message texts |
| LegacyScreen.SetModeRequest | src/screen/mod.rs:226-256 | `set_mode` turns a mode starting "max-" into a maximum-resolution request for the rest, after removing every leading "max-"; any other mode must parse, and its parse error is returned before any backend is reached |
| LegacyScreen.PrefixesStripped | src/screen/mod.rs:228 | `trim_start_matches` removes every leading copy of "max-", not just one |
| LegacyScreen.RepeatedPrefixStripped | src/screen/mod.rs:227-228 | so "max-max-…max-<rest>" asks for the maximum resolution `<rest>` |
| LegacyScreen.Dispatch | src/screen/mod.rs:229-235 | a request is carried out on the KMS/DRM side or sent to sway, as the detected backend says |
| LegacyScreen.SetMode | src/screen/mod.rs:226-256 | `set_mode` returns the parse error without touching a backend, and otherwise the outcome of the detected backend for the request |
| LegacyScreen.MinToMaxRequest | src/screen/mod.rs:357-360 | `min_to_max_resolution` asks for the maximum resolution 1920x1080 |
| LegacyScreen.MinToMaxIsSetModeMax | src/screen/mod.rs:357-370 | that is the request `set_mode` makes for "max-1920x1080" |
| LegacyScreen.FixedLimitIsDefault | src/screen/mod.rs:359 | the fixed 1920x1080 is the Wayland backend's own default limit |
| LegacyScreen.MinToMaxResolution | src/screen/mod.rs:357-370 | `min_to_max_resolution` hands 1920x1080 to the detected backend's maximum-resolution call and returns its outcome |
| LegacyScreen.MapTouchScreen | src/screen/mod.rs:332-345 | `map_touch_screen` does nothing and succeeds on KMS/DRM, and on Wayland returns the Wayland mapping's outcome |
| LegacyWayland.ModeLines | src/screen/wayland.rs:133-145 | one line per mode of an output, "WxH@R:name WxH@RHz", with the refresh through `format_refresh` |
| LegacyWayland.LinesPerOutput | src/screen/wayland.rs:128-156 | the mode lines of each filtered output, in order |
| LegacyWayland.Blocks | src/screen/wayland.rs:128-156 | each output's lines joined by newlines into one block |
| LegacyWayland.JoinFlatten | src/screen/wayland.rs:128-156 | when every output has a mode, joining the blocks with newlines is joining all the mode lines with newlines |
| LegacyWayland.PushModeLines | src/screen/wayland.rs:133-150 | the inner loop of `wayland_list_modes` appends an output's mode lines with a newline after each but the last |
| LegacyWayland.ListModes | src/screen/wayland.rs:113-160 | `wayland_list_modes` produces the blocks of the filtered outputs separated by newlines, with none at the end |
| LegacyWayland.ListModesLines | src/screen/wayland.rs:113-160 | when every listed output has at least one mode and no name holds a newline, the listing splits back, line by line, into the mode lines of the outputs in order |
| LegacyWayland.OutputNames | src/screen/wayland.rs:187-194 | the output names, in order |
| LegacyWayland.ListOutputs | src/screen/wayland.rs:180-197 | `wayland_list_outputs` is the output names separated by newlines, with none at the end |
| LegacyWayland.ListOutputsLines | src/screen/wayland.rs:180-197 | with names free of newlines the listing splits back into the names |
| LegacyWayland.ModePieces | src/screen/wayland.rs:225-234 | each filtered output adds its current mode as "WxH@R", or nothing when it has none |
| LegacyWayland.CurrentMode | src/screen/wayland.rs:218-245 | `wayland_current_mode` concatenates those pieces, or answers "No current mode found." when there are none |
| LegacyWayland.CurrentModeFallback | src/screen/wayland.rs:238-241 | the fallback is used exactly when no filtered output has a current mode |
| LegacyWayland.CurrentModesRunTogether | src/screen/wayland.rs:225-234 | two current modes are run together with no separator |
| LegacyWayland.NamePieces | src/screen/wayland.rs:269-273 | each output adds its name when it has a current mode, and nothing otherwise |
| LegacyWayland.CurrentOutput | src/screen/wayland.rs:262-282 | `wayland_current_output` concatenates the names of all outputs with a current mode, or answers "No current output found." |
| LegacyWayland.CurrentOutputFallback | src/screen/wayland.rs:275-278 | the fallback is used exactly when no output has a current mode |
| LegacyWayland.GatherLines | src/screen/wayland.rs:314-333 | the loop shared by the resolution and refresh queries yields the concatenated pieces, or the fallback when they are empty |
| LegacyWayland.CurrentResolution | src/screen/wayland.rs:303-334 | `wayland_current_resolution` as written: the "WxH" pieces, or "No current resolution found." |
| LegacyWayland.CurrentRefresh | src/screen/wayland.rs:357-383 | `wayland_current_refresh` as written: the `format_refresh` pieces, or "No current refresh rate found." |
| LegacyWayland.Lines | src/screen/wayland.rs:314-326 | the evidently intended lines: one per filtered output with a current mode, in order |
| LegacyWayland.LinesFrom | src/screen/wayland.rs:314-326 | every intended line renders the current mode of some output |
| LegacyWayland.ResolutionLinesSplit | src/screen/wayland.rs:314-326 | the corrected text splits back into exactly one resolution per output with a current mode |
| LegacyWayland.AsWrittenAgreesWhenLastHasMode | src/screen/wayland.rs:314-326 | the loop as written gives the corrected text whenever the last filtered output has a current mode |
| LegacyWayland.TrailingNewline | src/screen/wayland.rs:322-324 | a screen with mode 1920x1080 followed by one without a mode leaves "1920x1080\n" where the intended text is "1920x1080" |
| LegacyWayland.SetMode | src/screen/wayland.rs:415-515 | `wayland_set_mode` sends a mode command to each target that offers the width and height, stops at the first refused command with "Failed to set mode for output '<name>': …", refuses a missing named screen before sending, and fails for a named screen where nothing was applied |
| LegacyWayland.MissingScreen | src/screen/wayland.rs:431-440 | a named screen that is not there is refused with "Screen '<name>' not found" and nothing is sent |
| LegacyWayland.NamedScreenWithoutMode | src/screen/wayland.rs:457-464 | a named screen without the width and height gets nothing sent and fails with "Failed to set mode WxH@RHz for specified screen" |
| LegacyWayland.SameAsDaemon | src/screen/wayland.rs:415-515 | for a mode whose values fit in `i32`, this function sends the same commands as the daemon's `set_mode`, and when every command goes through both succeed |
| LegacyWayland.SetOutput | src/screen/wayland.rs:522-544 | `wayland_set_output` refuses an unknown output with "Output '<name>' not found" before sending; otherwise it sends "output <name> enable" once and reports a refusal as "Failed to set output: …" |
| LegacyWayland.InvalidRotation | src/screen/wayland.rs:574-584 | the refusal quotes the rotation given and lists the four valid strings in Rust's debug form, `["0", "90", "180", "270"]` |
| LegacyWayland.SetRotation | src/screen/wayland.rs:566-615 | `wayland_set_rotation` refuses any string but "0", "90", "180" and "270" before sending; otherwise every filtered output gets "output <name> transform <rotation>", and the first refusal ends it |
| LegacyWayland.RotationSentToEach | src/screen/wayland.rs:588-613 | when every command goes through, each filtered output gets its transform command, in order |
| LegacyWayland.ParseLimit | src/screen/wayland.rs:777-799 | the limit is 1920x1080 when none is given; otherwise anything but two 'x'-separated pieces is a format error; a width that does not read as `i32` fails with "Failed to parse width: …", then a height with "Failed to parse height: …"; two values not both positive are refused, and two positive values are the limit |
| LegacyWayland.ParseSize | src/screen/wayland.rs:783-797 | both values of an accepted limit are positive and are what the two pieces read as |
| LegacyWayland.ParseLimitText | src/screen/wayland.rs:777-799 | a limit "{w}x{h}" with both values positive reads back as (w, h) |
| LegacyWayland.NegativeLimitRefused | src/screen/wayland.rs:790-796 | "-5x10" parses but is refused as not positive |
| LegacyWayland.NegativeWidth | src/screen/wayland.rs:790-796 | a width of -5 is refused with "Resolution dimensions must be positive: -5x10" |
| LegacyWayland.BestMode | src/screen/wayland.rs:824-835 | the best mode fits the limit, has the largest area (the `i32` product) among the fitting modes, and is the first of them with that area |
| LegacyWayland.TieGoesToFirst | src/screen/wayland.rs:827-829 | of two fitting modes with the same area the first is kept |
| LegacyWayland.TieBreaksDiffer | src/screen/wayland.rs:824-835 | on two equal-area modes this function keeps the first and the daemon's keeps the last |
| LegacyWayland.MinToMaxOutcome | src/screen/wayland.rs:773-873 | `wayland_min_to_max_resolution` passes on the limit's refusal; it succeeds exactly when the limit is accepted and either no command is needed or the compositor applies the one sent; a refusal of that command names the target output and the compositor's error |
| LegacyWayland.MinToMaxSent | src/screen/wayland.rs:773-873 | at most one command is sent, and none when the limit is refused |
| LegacyWayland.MinToMaxResolution | src/screen/wayland.rs:773-873 | `wayland_min_to_max_resolution` checks the limit first, then sends at most the one command for the best fitting mode of the target, and only when the target's current mode exceeds the limit |
| LegacyWayland.FittingModeKept | src/screen/wayland.rs:816-822 | a target already within the limit is left alone |
| LegacyWayland.TouchOutcome | src/screen/wayland.rs:692-751 | `wayland_map_touch_screen` fails with "No touchscreen device found" without a touch device, then with "No focused output found" without a focused output; it succeeds exactly when both exist and the compositor applies the mapping command, and a refusal names the output and the compositor's error |
| LegacyWayland.TouchSent | src/screen/wayland.rs:692-751 | the one mapping command is sent exactly when a touch device and a focused output both exist, and it maps the first of each |
| LegacyWayland.MapTouchScreen | src/screen/wayland.rs:692-751 | `wayland_map_touch_screen` sends exactly those commands; it fails with "No touchscreen device found", then with "No focused output found", and otherwise reports a refused mapping as "Failed to map touchscreen to output '<name>': …" |
| LegacyWayland.NoTouchDevice | src/screen/wayland.rs:704-710 | without a touch device it fails with "No touchscreen device found" and sends nothing, whatever the outputs |
| ControllerDb.Field | src/bin/daemon/controller/controllerdb.rs:51-55 | a mapping field yields a key and value exactly when it holds a ':'; the key is the text before the first ':' and the value everything after it |
| ControllerDb.FieldOf | src/bin/daemon/controller/controllerdb.rs:51-55 | a field "key:value" with a ':'-free key yields that key and value |
| ControllerDb.InputsKeys | src/bin/daemon/controller/controllerdb.rs:48-56 | a key is in the parsed inputs exactly when some field carries it |
| ControllerDb.InputsLastWins | src/bin/daemon/controller/controllerdb.rs:54 | a key maps to the value of the last field that carries it |
| ControllerDb.DroppedField | src/bin/daemon/controller/controllerdb.rs:51 | a field without ':' adds nothing |
| ControllerDb.ParseControllerMappingData | src/bin/daemon/controller/controllerdb.rs:37-59 | `parse_controller_mapping_data` takes the first comma field as the name and inserts each later field's key and value from left to right |
| ControllerDb.Entries | src/bin/daemon/controller/controllerdb.rs:51-55 | the fields "key:value" of a list of pairs |
| ControllerDb.InputsOfEntries | src/bin/daemon/controller/controllerdb.rs:48-56 | parsing the fields of a list of pairs gives the map of those pairs, the last pair winning per key |
| ControllerDb.MappingRoundTrip | src/bin/daemon/controller/controllerdb.rs:37-59 | a mapping written as a name followed by "key:value" fields, none holding a ',' and each key free of ':', parses back to that name and map |
| ControllerDb.LineMapping | src/bin/daemon/controller/controllerdb.rs:94-110 | a blank or comment line gives nothing; a line gives mapping data only when its first comma field is the GUID and it has at least three fields, and the data is everything after the first ',' |
| ControllerDb.LineFound | src/bin/daemon/controller/controllerdb.rs:101-108 | a line "<guid>,<data>" whose data holds a ',' gives that data |
| ControllerDb.LookupLinesFirst | src/bin/daemon/controller/controllerdb.rs:93-110 | the lines of a file give data exactly when one of them does, and then it is the data of the first such line |
| ControllerDb.LookupAppend | src/bin/daemon/controller/controllerdb.rs:78-119 | the files are searched in order, and a later file is looked at only when the earlier ones found nothing and raised no read error |
| ControllerDb.LookupMiss | src/bin/daemon/controller/controllerdb.rs:78-122 | the search answers Ok(None) exactly when every file is missing, unopenable or read without error and without a hit |
| ControllerDb.FindGamecontrollerDb | src/bin/daemon/controller/controllerdb.rs:77-123 | `find_gamecontroller_db`'s loops over files and lines return the first hit, or the first read error, as `Lookup` says |
| ControllerDb.SearchLines | src/bin/daemon/controller/controllerdb.rs:93-110 | the inner loop over one file's lines returns the data of the first line with a mapping for the GUID |
| ControllerDb.MatchingIndices | src/bin/daemon/controller/controllerdb.rs:215-219 | the indices to remove are exactly those whose controller has the GUID, each once, in the map's iteration order |
| ControllerDb.ExceptMatches | src/bin/daemon/controller/controllerdb.rs:221-225 | removing those indices leaves exactly the controllers of other GUIDs |
| ControllerDb.ControllerTable.constructor | src/bin/daemon/controller/controllerdb.rs:24-31 | the table starts empty |
| ControllerDb.ControllerTable.IsControllerConfigured | src/bin/daemon/controller/controllerdb.rs:274-281 | `is_controller_configured` is true exactly when the index has an entry |
| ControllerDb.ControllerTable.GetSdlControllerConfig | src/bin/daemon/controller/controllerdb.rs:251-262 | `get_sdl_controller_config` returns a copy of the whole table |
| ControllerDb.ControllerTable.AddSdlControllerConfig | src/bin/daemon/controller/controllerdb.rs:139-181 | an index already present, a GUID the database does not give and a failed search all give Ok(None) and leave the table alone; a table of 8 refuses with "Maximum number of controllers (8) reached. Cannot add more."; otherwise the parsed controller is stored at the index and returned; the table never grows past 8 |
| ControllerDb.ControllerTable.RemoveSdlControllerConfig | src/bin/daemon/controller/controllerdb.rs:197-242 | with a GUID every entry carrying it is removed and returned in the map's order, the rest kept; without one every entry is returned and the table emptied |
| ControllerDb.RemovedAreTheMatches | src/bin/daemon/controller/controllerdb.rs:210-231 | the controllers removed by GUID are exactly the table's controllers with that GUID |
| Cli.Name | src/bin/cli/main.rs:96-118 | each subcommand is sent under the daemon's registered name for the same command, "minToMaxResolution" included |
| Cli.Words | src/bin/cli/main.rs:95-131 | the request's words start with the subcommand's name |
| Cli.BuildRequest | src/bin/cli/main.rs:92-131 | the request `handle_command` builds is its words joined by single spaces: the name, the value of a setter, " --screen <screen>" when a screen is given, then the extra arguments |
| Cli.PushCommand | src/bin/cli/main.rs:95-119 | the first part of the request is the name, followed by a space and the value for the three setters |
| Cli.ScreenStep | src/bin/cli/main.rs:122-125 | the screen option appends the two words "--screen" and the screen |
| Cli.RequestTokens | src/bin/cli/main.rs:92-131 | when every word is free of whitespace, the daemon's tokeniser sees exactly the request's words |
| Cli.SetterTokens | src/bin/cli/main.rs:104-125 | a setter request with a screen is four words: the name, the value, "--screen" and the screen |
| Cli.ScreenOptionTakenAsScreen | src/bin/cli/main.rs:122-125 | the daemon does not pick the screen option out: `setMode <mode> --screen <s>` reaches the mode setter with "--screen" as the screen, and the screen the user named is dropped |
| Cli.SetModeOutcome | src/bin/cli/main.rs:104-107 | the daemon treats the first word after setMode as the mode and the second as the screen |
| Cli.AcceptedRotationPasses | src/bin/cli/main.rs:52-55 | the parser's allowed `setRotation` values are exactly the ones the daemon's rotation check lets through to the screen layer; any other value the daemon refuses with its rotation message |
| Cli.ScreenBreaksSetOutput | src/bin/cli/main.rs:108-125 | a `setOutput` request with a screen is refused by the daemon: "setOutput expects 1 arguments, got 3" |
| Cli.SetOutputOutcome | src/bin/cli/main.rs:108-111 | the daemon refuses setOutput with three arguments |
| Cli.ReplyText | src/bin/cli/main.rs:140-143 | the reply's text is its first frame decoded as UTF-8, or the empty string when there is no frame |
| Cli.ReplyRoundTrip | src/bin/cli/main.rs:140-143 | a reply whose first frame encodes a text reads back as that text, whatever frames follow |
| RegmsgCpp.Words | regmsg.cpp:51-80 | the request's words start with the command's name |
| RegmsgCpp.BuildCommand | regmsg.cpp:51-80 | `build_command` is the words joined by single spaces: the name (with `extra_arg` for the three set commands), " --screen <screen>" when a screen is given, then every extra argument |
| RegmsgCpp.CommandPart | regmsg.cpp:54-69 | the switch gives the name, followed by a space and `extra_arg` for setMode, setOutput and setRotation |
| RegmsgCpp.CommandOf | regmsg.cpp:104-119 | a recognised command string is the name of the command it selects |
| RegmsgCpp.CommandOfName | regmsg.cpp:104-119 | every command type is recognised by its own name |
| RegmsgCpp.ParseCli | regmsg.cpp:83-124 | `parse_cli` shows usage for help or a missing command, rejects an unknown command, fails for a set command without a value, and otherwise keeps the screen and all positional arguments, with a set command's first argument also as `extra_arg` |
| RegmsgCpp.ValueSentTwice | regmsg.cpp:113-121 | a set command's value is sent twice: once as `extra_arg` after the name, and again as the first of the arguments |
| RegmsgCpp.ParsedSetCommand | regmsg.cpp:113-121 | a set command with one value and no screen parses to a request carrying the value both as `extra_arg` and as its argument |
| RegmsgCpp.DaemonName | regmsg.cpp:55-68 | every command is sent under the name the daemon registers it under |
| RegmsgCpp.RepeatedValueRequest | regmsg.cpp:63-77 | such a request reaches the daemon's handler for that command with the value twice as its arguments |
| RegmsgCpp.RepeatedValueTakenAsScreen | regmsg.cpp:63-77 | the daemon then reads the repeated value as the screen: `setMode v` from this client sets mode v on the screen named v |
| RegmsgCpp.SetOutputAlwaysRefused | regmsg.cpp:64-77 | `setOutput o` from this client carries two arguments, so the daemon's one-argument setOutput always refuses it with "setOutput expects 1 arguments, got 2" |
| RegmsgCpp.SetOutputTwo | regmsg.cpp:64 | the daemon refuses setOutput with two arguments |
| RegmsgCpp.RepeatedValueTokens | regmsg.cpp:63-77 | such a request is three words: the name and the value twice |
| RegmsgCpp.ParseCliCorrected | regmsg.cpp:113-121 | the corrected `parse_cli` keeps a set command's first argument as `extra_arg` only and passes the remaining arguments on |
| RegmsgCpp.CorrectedMatchesRustClient | regmsg.cpp:51-124 | with that correction this client sends exactly what the Rust client sends for the same command, value, screen and extra arguments |
| RegmsgCpp.NameAgrees | regmsg.cpp:55-68 | both clients send the same name for the same command |
| DrmHook.Stored | lib/drmhook.c:59 | a `%u` conversion stores a magnitude that fits 32 bits unchanged, and after a '-' its negation modulo 2^32; a magnitude that fits an `unsigned long` keeps its low 32 bits (negated after a '-'); a larger one stores all ones |
| DrmHook.SignedNumber | lib/drmhook.c:59 | `%u` accepts a '+' or '-' before the digits: "+<n>" reads n and "-<n>" reads the 32-bit negation of n, the rest of the input untouched |
| DrmHook.Negated | lib/drmhook.c:59 | the value stored for "-<n>" is the one that adds up with n to a multiple of 2^32 |
| DrmHook.SignedScanFormatted | lib/drmhook.c:58-59 | the scan `"%ux%u@%u"` of a line "+<w>x<h>@<r>" yields (w, h, r), and of "-<w>x<h>@<r>" the width negated modulo 2^32 |
| DrmHook.SignedFileRoundTrip | lib/drmhook.c:44-69 | a file whose first line is a signed mode names that mode, its width negated after a '-': "+1920x1080@60" names (1920, 1080, 60) and "-1x1080@60" the width 2^32 - 1 |
| DrmHook.ScanNumber | lib/drmhook.c:59 | `%u` reads back exactly the decimal text of any 32-bit value and leaves the rest of the input untouched |
| DrmHook.ScanFormatted | lib/drmhook.c:58-59 | the scan `"%ux%u@%u"` of a line "<w>x<h>@<r>" followed by anything yields exactly (w, h, r) |
| DrmHook.FirstLine | lib/drmhook.c:55-56 | `fgets` into the 128-byte buffer reads a prefix of the file of at most 127 characters |
| DrmHook.FileRoundTrip | lib/drmhook.c:44-69 | a file whose first line is "<w>x<h>@<r>" names the mode (w, h, r), whatever follows that line |
| DrmHook.ReadPreferredMode | lib/drmhook.c:44-69 | `read_preferred_mode` returns 1 exactly when the file opens, has a first line and that line scans as three numbers, and then its outputs are those three numbers; otherwise it returns 0 |
| DrmHook.WithPreferred | lib/drmhook.c:132 | OR-ing `DRM_MODE_TYPE_PREFERRED` into the type sets the PREFERRED bit and keeps every other bit |
| DrmHook.WithoutPreferred | lib/drmhook.c:139 | `type &= ~DRM_MODE_TYPE_PREFERRED` clears the PREFERRED bit and keeps every other bit |
| DrmHook.Connector.constructor | lib/drmhook.c:102 | a connector holds the mode count and the mode array the real `drmModeGetConnector` returned |
| DrmHook.Rewritten | lib/drmhook.c:124-140 | the loop body changes only a mode's type bits, never its name, size or refresh |
| DrmHook.AfterHookKeeps | lib/drmhook.c:105-119 | with no modes, or a mode file that cannot be read or does not scan, the modes are left as they were |
| DrmHook.AfterHookAt | lib/drmhook.c:122-141 | after the hook, each of the first `count_modes` modes is rewritten against the named mode and the rest of the array is untouched |
| DrmHook.PreferredExactlyMatching | lib/drmhook.c:122-141 | after the hook, a listed mode carries PREFERRED if and only if its width, height and refresh equal the named mode, and every mode keeps its other type bits and fields |
| DrmHook.HookIdempotent | lib/drmhook.c:84-145 | applying the hook a second time with the same mode file changes nothing more |
| DrmHook.DrmModeGetConnector | lib/drmhook.c:84-145 | the hook returns the connector the real function returned (null stays null) and leaves its mode array as `AfterHook` gives it for that mode count and mode file |
| DrmHook.ApplyModeFile | lib/drmhook.c:111-141 | reading the mode file then running the loop leaves the modes rewritten when the file names a mode and unchanged when it does not |
| DrmHook.RewriteModes | lib/drmhook.c:121-141 | the loop over the first `count_modes` modes sets PREFERRED on the matching modes and clears it on the others, in place |

## Left out

- **Floating point.** The f32 refresh conversion `(refresh as f32 / 1000.0).round() as u32` in the daemon's Wayland backend is not modelled. It is the parameter `hz` of `DaemonWayland.ToDisplayMode` and of the queries built on it.
- **Compositor and device I/O.** The swayipc connection, `get_outputs`, `get_inputs` and the transport of `run_command` are outside the model. A `SwayConnection` holds the outputs and inputs, the reply the compositor gives to each command, and the record of the commands sent.
- **Screenshots.** The `grim` subprocess, `create_dir_all` and the chrono timestamps of the screenshot functions are outside the model. The daemon's screenshot call is a backend operation taken as given, and the older `wayland_get_screenshot` is not part of this model.
- **KMS/DRM backends.** `src/screen/kmsdrm.rs` and `src/bin/daemon/screen/kmsdrm.rs` are ioctl wrappers over the drm crate. Their outcomes are parameters of `LegacyScreen` and of the backend record in `Backend`.
- **Backend selection.** `default_backend` probes the environment and the filesystem. The daemon's screen functions take the backend it would pick as a parameter, and `detect_backend` takes "WAYLAND_DISPLAY is set" as a boolean.
- **Method name mismatch.** The daemon's `screen/mod.rs` calls `backend.min_to_max_resolution`, but the backend trait names that method `set_max_resolution`. The model joins the two calls to the backend's maximum-resolution operation.
- **Older screen dispatchers.** The pass-through dispatchers in `src/screen/mod.rs` (`list_modes`, `list_outputs`, `current_*`, `set_output`, `set_rotation`, `get_screenshot`) only forward to the Wayland or KMS/DRM function. The model covers the Wayland functions themselves, and the dispatch once, in `LegacyScreen.Dispatch`.
- **HashMap iteration order.** The order in which `set_mode` (no screen named) visits the outputs in `preprocess_outputs`' map is a parameter `order`, required to list each output name once. Likewise, the order in which `remove_sdl_controller_config` visits the table is a parameter.
- **Transport.** The server's transport is not modelled:
  - the socket set-up and removal in `DaemonServer::new`;
  - the `select!` receive loop and its shutdown channel;
  - the backoff sleeps between send attempts;
  - the signal handling.

  The socket's answer to each send attempt is an input sequence, and one message is one call of `ProcessMessage`.
- **Concurrency.** The `OnceLock`/`Arc`/`Mutex` around the controller table, and the lock-failure errors, are left out. The table is one `ControllerTable` object, and each database file is a sequence of lines with a flag for a read error.
- **Controller delegation.** `src/bin/daemon/controller/mod.rs` calls `add_sdl_controller_config` with one argument, which does not match its two-argument definition. The model follows controllerdb.rs's own signature.
- **Unreachable branch.** The "Unknown" name in `parse_controller_mapping_data` is returned only when splitting yields no piece. That cannot happen, because `split` always yields at least one piece (`Text.Split`).
- **Other clients and tools.** The interactive shell, the Python tool, the JSON/zmq client `src/bin/cli.rs`, the printing stubs in `src/main.rs` and the C++ `Logger` are not part of this model. The clap and cxxopts parsers are not modelled either: both clients are modelled from the values those parsers hand over.
- **DRM hook environment.** `dlsym(RTLD_NEXT, …)`, its failure path and the `printf` traces are outside the model. The real `drmModeGetConnector`'s result is the `connector` parameter, and the file `/tmp/drmMode` is the `ModeFile` parameter.
- **Mode file path mismatch.** The daemon's KMS/DRM code writes `/var/run/drmMode`, not the `/tmp/drmMode` the hook reads. This model does not connect the two.
- **PREFERRED flag value.** `DRM_MODE_TYPE_PREFERRED` is libdrm's value, bit 3. The hook's fallback `0x1` only applies when the header does not define it, and the header the hook includes does define it.
- **Backend error type.** `src/bin/daemon/screen/backend.rs` returns `crate::error`'s `RegmsgError`, while `screen/mod.rs` passes those errors on with `?` as `utils::error`'s `RegmsgError`, and the code has no conversion between the two. The model gives the backend record the utilities type (`UtilsError`), so errors pass through unchanged. `DaemonError.ToUtils` and `DaemonError.AgreesWithUtils` show that the two types correspond variant for variant, with the same texts.
- **Integer overflow checks.** The area products `width * height` in both Wayland backends (`DaemonWayland.Area` in `u32`, `LegacyWayland.Area` in `i32`) wrap around as in release builds. Debug builds panic on that overflow instead, and the model does not capture the panic.
- **Logging.** The `tracing`, `log`, `println!` and `std::cerr` output is not modelled.
- Utf8.FromUtf8: its own contract states only that the reported valid prefix ends inside the input. That decoding gives back exactly the encoded text is stated separately, by `Utf8.FromUtf8Encode`.

## Findings

| source | as written | input that shows it | evidently intended | confidence | as-written member | corrected member |
|---|---|---|---|---|---|---|
| src/screen/wayland.rs:314-326 | `wayland_current_resolution` (and `wayland_current_refresh`) add "\n" after an output's value unless that output is the last filtered one, whether or not the last one has a current mode | a screen with mode 1920x1080 followed by a screen with no current mode: the text is "1920x1080\n" | one value per output with a current mode, separated by "\n" and with no trailing newline | not executed | LegacyWayland.TrailingNewline | LegacyWayland.ResolutionLinesSplit |
| regmsg.cpp:113-121 | `parse_cli` copies the first argument of setMode, setOutput and setRotation into `extra_arg` and also keeps it in `args`, so `build_command` sends the value twice | `regmsg-cli setOutput HDMI-1` sends "setOutput HDMI-1 HDMI-1", which the daemon refuses with "setOutput expects 1 arguments, got 2" | the value sent once, as the Rust client sends it | not executed | RegmsgCpp.SetOutputAlwaysRefused | RegmsgCpp.CorrectedMatchesRustClient |
