/** The daemon's older, hard-coded dispatcher
    (src/bin/daemon/server/command_handler.rs): a match on the first
    whitespace token, with the screen functions passed in, and the three
    wrappers that turn a screen function's outcome into a command result.

    A screen function's error (`Box<dyn Error>`) is represented by its
    `Display` text. */
module CommandHandler {
  import opened Wrappers
  import opened Text

  datatype CommandError =
    | InvalidArguments(msg: string)
    | UnknownCommand(cmd: string)
    | ExecutionError(err: string)
    | EmptyCommand

  /** `impl Display for CommandError`. */
  function Display(e: CommandError): string {
    match e
    case InvalidArguments(m) => "Invalid arguments: " + m
    case UnknownCommand(c) => "Unknown command: " + c
    case ExecutionError(err) => "Execution error: " + err
    case EmptyCommand => "Empty command"
  }

  type CommandResult = Result<string, CommandError>

  /** The screen functions `handle_command` is given.  Those without
      parameters are represented by the outcome of calling them; the others
      by the function from their arguments to their outcome. */
  datatype ScreenFunctions = ScreenFunctions(
    listModes: Option<string> -> Result<string, string>,
    listOutputs: Result<string, string>,
    currentMode: Option<string> -> Result<string, string>,
    currentOutput: Result<string, string>,
    currentResolution: Option<string> -> Result<string, string>,
    currentRotation: Option<string> -> Result<string, string>,
    currentRefresh: Option<string> -> Result<string, string>,
    currentBackend: Result<string, string>,
    setMode: (Option<string>, string) -> Result<Unit, string>,
    setOutput: string -> Result<Unit, string>,
    setRotation: (Option<string>, string) -> Result<Unit, string>,
    getScreenshot: Result<Unit, string>,
    mapTouchScreen: Result<Unit, string>,
    minToMaxResolution: Option<string> -> Result<Unit, string>)

  /** `execute_command_with_result`: the text verbatim, or the error
      wrapped unchanged. */
  function WithResult(x: Result<string, string>): (r: CommandResult)
    ensures r.Ok? <==> x.Ok?
    ensures r.Ok? ==> r.value == x.value
    ensures x.Err? ==> r == Err(ExecutionError(x.error))
  {
    match x
    case Ok(text) => Ok(text)
    case Err(e) => Err(ExecutionError(e))
  }

  /** `execute_command_with_unit_result`: the fixed success message, or the
      error wrapped unchanged. */
  function WithUnitResult(x: Result<Unit, string>, successMsg: string): (r: CommandResult)
    ensures r.Ok? <==> x.Ok?
    ensures r.Ok? ==> r.value == successMsg
    ensures x.Err? ==> r == Err(ExecutionError(x.error))
  {
    match x
    case Ok(_) => Ok(successMsg)
    case Err(e) => Err(ExecutionError(e))
  }

  /** The success text of `execute_command_with_arg_result`: the first "{}"
      of the template replaced by the argument, or the argument appended
      after a space when the template has no "{}". */
  function FillTemplate(template: string, arg: string): string {
    if Contains(template, "{}") then ReplaceFirst(template, "{}", arg) else template + " " + arg
  }

  /** `execute_command_with_arg_result`: an empty argument is refused
      before the function is called. */
  function WithArgResult(f: string -> Result<Unit, string>, arg: string, template: string, cmdName: string)
    : (r: CommandResult)
    ensures arg == [] ==> r == Err(InvalidArguments(cmdName + " requires an argument"))
    ensures arg != [] ==> (r.Ok? <==> f(arg).Ok?)
    ensures r.Ok? ==> r.value == FillTemplate(template, arg)
    ensures arg != [] && f(arg).Err? ==> r == Err(ExecutionError(f(arg).error))
  {
    if arg == [] then Err(InvalidArguments(cmdName + " requires an argument"))
    else
      match f(arg)
      case Ok(_) => Ok(FillTemplate(template, arg))
      case Err(e) => Err(ExecutionError(e))
  }

  /** The names answered by a text-returning function called without a
      screen. */
  predicate IsQueryName(cmd: string) {
    cmd == "listModes" || cmd == "listOutputs" || cmd == "currentMode" || cmd == "currentOutput"
    || cmd == "currentResolution" || cmd == "currentRotation" || cmd == "currentRefresh"
    || cmd == "currentBackend"
  }

  /** The names answered by a fixed confirmation. */
  predicate IsUnitName(cmd: string) {
    cmd == "getScreenshot" || cmd == "mapTouchScreen" || cmd == "minTomaxResolution"
  }

  /** The names that take exactly one argument. */
  predicate IsSetterName(cmd: string) {
    cmd == "setMode" || cmd == "setOutput" || cmd == "setRotation"
  }

  /** The arms of the match: a name with this many arguments is dispatched. */
  predicate Recognised(cmd: string, argc: nat) {
    IsQueryName(cmd) || IsUnitName(cmd) || (IsSetterName(cmd) && argc == 1)
  }

  /** The match of `handle_command` on the command token `cmd` with its
      arguments `args`; `cmdline` is the whole line, which an unknown
      command reports. */
  function Match(f: ScreenFunctions, cmd: string, args: seq<string>, cmdline: string): (r: CommandResult)
    ensures r == Err(EmptyCommand) <==> cmd == ""
    ensures r.Err? && r.error.UnknownCommand? <==> cmd != "" && !Recognised(cmd, |args|)
    ensures r.Err? && r.error.UnknownCommand? ==> r.error.cmd == cmdline
    ensures r.Err? && r.error.InvalidArguments? ==> IsSetterName(cmd) && |args| == 1 && args[0] == []
  {
    if cmd == "listModes" then WithResult(f.listModes(None))
    else if cmd == "listOutputs" then WithResult(f.listOutputs)
    else if cmd == "currentMode" then WithResult(f.currentMode(None))
    else if cmd == "currentOutput" then WithResult(f.currentOutput)
    else if cmd == "currentResolution" then WithResult(f.currentResolution(None))
    else if cmd == "currentRotation" then WithResult(f.currentRotation(None))
    else if cmd == "currentRefresh" then WithResult(f.currentRefresh(None))
    else if cmd == "currentBackend" then WithResult(f.currentBackend)
    else if cmd == "getScreenshot" then WithUnitResult(f.getScreenshot, "Screenshot taken")
    else if cmd == "mapTouchScreen" then WithUnitResult(f.mapTouchScreen, "Touchscreen mapped")
    else if cmd == "minTomaxResolution" then
      WithUnitResult(f.minToMaxResolution(None), "Resolution set to max")
    else if cmd == "setMode" && |args| == 1 then
      WithArgResult(a => f.setMode(None, a), args[0], "Mode set to {}", "setMode")
    else if cmd == "setOutput" && |args| == 1 then
      WithArgResult(f.setOutput, args[0], "Output set to {}", "setOutput")
    else if cmd == "setRotation" && |args| == 1 then
      WithArgResult(a => f.setRotation(None, a), args[0], "Rotation set to {}", "setRotation")
    else if cmd == "" then Err(EmptyCommand)
    else Err(UnknownCommand(cmdline))
  }

  /** `handle_command`: the first whitespace token selects the arm, and a
      blank line reaches the arm for the empty name. */
  function HandleCommand(f: ScreenFunctions, cmdline: string): (r: CommandResult)
    ensures r == Err(EmptyCommand) <==> SplitWhitespace(cmdline) == []
    ensures r.Err? && r.error.UnknownCommand? <==>
      SplitWhitespace(cmdline) != []
      && !Recognised(SplitWhitespace(cmdline)[0], |SplitWhitespace(cmdline)| - 1)
    ensures r.Err? && r.error.UnknownCommand? ==> r.error.cmd == cmdline
  {
    var parts := SplitWhitespace(cmdline);
    if parts == [] then Match(f, "", [], cmdline)
    else
      assert IsToken(parts[0]);
      Match(f, parts[0], parts[1..], cmdline)
  }

  /** The wrappers never produce the two errors that belong to the match
      itself. */
  lemma WrappersOwnErrors(r: Result<string, string>, u: Result<Unit, string>, msg: string,
                          g: string -> Result<Unit, string>, arg: string, template: string, name: string)
    ensures WithResult(r).Err? ==> WithResult(r).error.ExecutionError?
    ensures WithUnitResult(u, msg).Err? ==> WithUnitResult(u, msg).error.ExecutionError?
    ensures WithArgResult(g, arg, template, name).Err? ==>
      WithArgResult(g, arg, template, name).error.ExecutionError? || arg == []
  {
  }

  /** An empty or all-whitespace line, and only such a line, is an empty
      command. */
  lemma EmptyLine(f: ScreenFunctions, cmdline: string)
    ensures HandleCommand(f, cmdline) == Err(EmptyCommand) <==> AllWhitespace(cmdline)
  {
    SplitWhitespaceEmpty(cmdline);
    var parts := SplitWhitespace(cmdline);
    if parts != [] {
      assert IsToken(parts[0]);
    }
  }

  /** A line whose first token has no arm (with its argument count) is
      unknown, and the error carries the whole line, not only the token. */
  lemma UnknownCarriesLine(f: ScreenFunctions, cmdline: string)
    requires SplitWhitespace(cmdline) != []
    requires !Recognised(SplitWhitespace(cmdline)[0], |SplitWhitespace(cmdline)| - 1)
    ensures HandleCommand(f, cmdline) == Err(UnknownCommand(cmdline))
  {
    assert IsToken(SplitWhitespace(cmdline)[0]);
  }

  /** The setters are dispatched only with exactly one argument; with none,
      or with a screen after the value, the whole line is unknown. */
  lemma SettersTakeOneArgument(f: ScreenFunctions, cmdline: string)
    requires SplitWhitespace(cmdline) != [] && IsSetterName(SplitWhitespace(cmdline)[0])
    requires |SplitWhitespace(cmdline)| != 2
    ensures HandleCommand(f, cmdline) == Err(UnknownCommand(cmdline))
  {
    var parts := SplitWhitespace(cmdline);
    assert HandleCommand(f, cmdline) == Match(f, parts[0], parts[1..], cmdline);
    assert parts[0] != "" && !Recognised(parts[0], |parts[1..]|);
  }

  /** Only the spelling "minTomaxResolution" is dispatched; the daemon's
      registered spelling "minToMaxResolution" is unknown here. */
  lemma MinToMaxSpelling(f: ScreenFunctions, args: seq<string>, cmdline: string)
    ensures Match(f, "minToMaxResolution", args, cmdline) == Err(UnknownCommand(cmdline))
    ensures Match(f, "minTomaxResolution", args, cmdline) ==
      WithUnitResult(f.minToMaxResolution(None), "Resolution set to max")
  {
  }

  /** Each of the eight queries runs without a screen whatever tokens
      follow its name. */
  lemma QueriesIgnoreArguments(f: ScreenFunctions, cmdline: string)
    requires SplitWhitespace(cmdline) != []
    ensures var cmd := SplitWhitespace(cmdline)[0];
      && (cmd == "listModes" ==> HandleCommand(f, cmdline) == WithResult(f.listModes(None)))
      && (cmd == "listOutputs" ==> HandleCommand(f, cmdline) == WithResult(f.listOutputs))
      && (cmd == "currentMode" ==> HandleCommand(f, cmdline) == WithResult(f.currentMode(None)))
      && (cmd == "currentOutput" ==> HandleCommand(f, cmdline) == WithResult(f.currentOutput))
      && (cmd == "currentResolution" ==> HandleCommand(f, cmdline) == WithResult(f.currentResolution(None)))
      && (cmd == "currentRotation" ==> HandleCommand(f, cmdline) == WithResult(f.currentRotation(None)))
      && (cmd == "currentRefresh" ==> HandleCommand(f, cmdline) == WithResult(f.currentRefresh(None)))
      && (cmd == "currentBackend" ==> HandleCommand(f, cmdline) == WithResult(f.currentBackend))
  {
  }

  /** The fixed confirmations of the unit commands; a failure is passed on
      unchanged as an execution error. */
  lemma UnitMessages(f: ScreenFunctions, cmdline: string)
    requires SplitWhitespace(cmdline) != []
    ensures SplitWhitespace(cmdline)[0] == "getScreenshot" ==>
      HandleCommand(f, cmdline) ==
        (if f.getScreenshot.Ok? then Ok("Screenshot taken") else Err(ExecutionError(f.getScreenshot.error)))
    ensures SplitWhitespace(cmdline)[0] == "mapTouchScreen" ==>
      HandleCommand(f, cmdline) ==
        (if f.mapTouchScreen.Ok? then Ok("Touchscreen mapped") else Err(ExecutionError(f.mapTouchScreen.error)))
    ensures SplitWhitespace(cmdline)[0] == "minTomaxResolution" ==>
      HandleCommand(f, cmdline) ==
        (if f.minToMaxResolution(None).Ok? then Ok("Resolution set to max")
         else Err(ExecutionError(f.minToMaxResolution(None).error)))
  {
  }

  /** `setMode <m>` calls the screen layer with no screen and the value
      `m`, and on success reports "Mode set to <m>". */
  lemma SetModeReply(f: ScreenFunctions, cmdline: string, mode: string)
    requires SplitWhitespace(cmdline) == ["setMode", mode]
    ensures f.setMode(None, mode).Ok? ==> HandleCommand(f, cmdline) == Ok("Mode set to " + mode)
    ensures f.setMode(None, mode).Err? ==> HandleCommand(f, cmdline) == Err(ExecutionError(f.setMode(None, mode).error))
  {
    assert IsToken(mode);
    assert "Mode set to {}" == "Mode set to " + "{}" + "";
    FillFirstPlaceholder("Mode set to ", "", mode);
    assert "Mode set to " + mode + "" == "Mode set to " + mode;
    assert FillTemplate("Mode set to {}", mode) == "Mode set to " + mode;
    assert HandleCommand(f, cmdline) == WithArgResult(a => f.setMode(None, a), mode, "Mode set to {}", "setMode");
  }

  /** A token is never empty, so the "requires an argument" refusal cannot
      be reached from `handle_command`. */
  lemma NoEmptyArgumentRefusal(f: ScreenFunctions, cmdline: string)
    ensures HandleCommand(f, cmdline).Err? ==> !HandleCommand(f, cmdline).error.InvalidArguments?
  {
    var parts := SplitWhitespace(cmdline);
    if |parts| == 2 {
      assert IsToken(parts[1]);
    }
  }

  /** With a template "<before>{}<after>" whose `before` holds no '{', the
      argument lands where the placeholder was. */
  lemma FillFirstPlaceholder(before: string, after: string, arg: string)
    requires forall i :: 0 <= i < |before| ==> before[i] != '{'
    ensures FillTemplate(before + "{}" + after, arg) == before + arg + after
  {
    var t := before + "{}" + after;
    assert t[|before|..|before| + 2] == "{}";
    assert MatchAt(t, "{}", |before|);
    forall j: nat | j < |before|
      ensures !MatchAt(t, "{}", j)
    {
      assert t[j] == before[j];
    }
    assert FindFirst(t, "{}") == Some(|before|);
    assert t[..|before|] == before && t[|before| + 2..] == after;
  }

  /** A template without a placeholder gets the argument appended after one
      space. */
  lemma FillWithoutPlaceholder(template: string, arg: string)
    requires forall j: nat :: !MatchAt(template, "{}", j)
    ensures FillTemplate(template, arg) == template + " " + arg
  {
  }
}
