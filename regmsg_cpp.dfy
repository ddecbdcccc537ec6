/** The C++ command-line client (regmsg.cpp): how `parse_cli` fills the
    request fields from the parsed options, and the request line
    `build_command` makes of them. */
module RegmsgCpp {
  import opened Wrappers
  import opened Text
  import Cli
  import Commands
  import CommandRegistry

  datatype CommandType =
    | ListModes | ListOutputs | CurrentMode | CurrentOutput | CurrentResolution
    | CurrentRotation | CurrentRefresh | CurrentBackend
    | SetMode | SetOutput | SetRotation
    | GetScreenshot | MapTouchScreen | MinToMaxResolution

  /** The request fields: `extra_arg` is the value of the set commands. */
  datatype CppCli = CppCli(screen: Option<string>, logTerminal: bool, command: CommandType,
                           args: seq<string>, extraArg: string)

  predicate IsSetCommand(c: CommandType) {
    c.SetMode? || c.SetOutput? || c.SetRotation?
  }

  /** The literal name each command type is sent as. */
  function Name(c: CommandType): string {
    match c
    case ListModes => "listModes"
    case ListOutputs => "listOutputs"
    case CurrentMode => "currentMode"
    case CurrentOutput => "currentOutput"
    case CurrentResolution => "currentResolution"
    case CurrentRotation => "currentRotation"
    case CurrentRefresh => "currentRefresh"
    case CurrentBackend => "currentBackend"
    case SetMode => "setMode"
    case SetOutput => "setOutput"
    case SetRotation => "setRotation"
    case GetScreenshot => "getScreenshot"
    case MapTouchScreen => "mapTouchScreen"
    case MinToMaxResolution => "minToMaxResolution"
  }

  /** The words of the request: the name, for a set command its value,
      the screen option, then every element of `args`. */
  function Words(cli: CppCli): (r: seq<string>)
    ensures r != [] && r[0] == Name(cli.command)
  {
    [Name(cli.command)] + (if IsSetCommand(cli.command) then [cli.extraArg] else [])
    + (match cli.screen case None => [] case Some(s) => ["--screen", s])
    + cli.args
  }

  /** `build_command`: the command part from the switch, ` --screen <s>`
      when a screen is present, then one space and each argument in turn. */
  method BuildCommand(cli: CppCli) returns (msg: string)
    ensures msg == Join(Words(cli), " ")
  {
    msg := CommandPart(cli.command, cli.extraArg);
    ghost var head := [Name(cli.command)] + (if IsSetCommand(cli.command) then [cli.extraArg] else []);
    if cli.screen.Some? {
      Cli.ScreenStep(head, cli.screen.value);
      assert msg + (" --screen " + cli.screen.value) == msg + " --screen " + cli.screen.value;
      msg := msg + (" --screen " + cli.screen.value);
      head := head + ["--screen", cli.screen.value];
    }
    assert head + cli.args[..0] == head;
    var i := 0;
    while i < |cli.args|
      invariant 0 <= i <= |cli.args|
      invariant head != [] && msg == Join(head + cli.args[..i], " ")
    {
      var a := cli.args[i];
      PrefixSnoc(head, cli.args, i);
      JoinSnoc(head + cli.args[..i], a, " ");
      assert msg + (" " + a) == msg + " " + a;
      msg := msg + (" " + a);
      i := i + 1;
    }
    assert cli.args[..i] == cli.args;
  }

  lemma PrefixSnoc(head: seq<string>, args: seq<string>, i: nat)
    requires i < |args|
    ensures head + args[..i + 1] == (head + args[..i]) + [args[i]]
  {
    assert args[..i + 1] == args[..i] + [args[i]];
  }

  /** The switch of `build_command`. */
  method CommandPart(c: CommandType, extraArg: string) returns (msg: string)
    ensures msg == Join([Name(c)] + (if IsSetCommand(c) then [extraArg] else []), " ")
  {
    match c {
      case SetMode => msg := "setMode " + extraArg;
      case SetOutput => msg := "setOutput " + extraArg;
      case SetRotation => msg := "setRotation " + extraArg;
      case _ => msg := Name(c);
    }
    if IsSetCommand(c) {
      var words := [Name(c), extraArg];
      assert words[1..] == [extraArg];
      assert Join(words, " ") == Name(c) + " " + extraArg;
      assert [Name(c)] + [extraArg] == words;
    }
  }

  /** The command type a command string names, if any: the chain of
      comparisons in `parse_cli`. */
  function CommandOf(s: string): (r: Option<CommandType>)
    ensures r.Some? ==> Name(r.value) == s
  {
    if s == "listModes" then Some(ListModes)
    else if s == "listOutputs" then Some(ListOutputs)
    else if s == "currentMode" then Some(CurrentMode)
    else if s == "currentOutput" then Some(CurrentOutput)
    else if s == "currentResolution" then Some(CurrentResolution)
    else if s == "currentRotation" then Some(CurrentRotation)
    else if s == "currentRefresh" then Some(CurrentRefresh)
    else if s == "currentBackend" then Some(CurrentBackend)
    else if s == "setMode" then Some(SetMode)
    else if s == "setOutput" then Some(SetOutput)
    else if s == "setRotation" then Some(SetRotation)
    else if s == "getScreenshot" then Some(GetScreenshot)
    else if s == "mapTouchScreen" then Some(MapTouchScreen)
    else if s == "minToMaxResolution" then Some(MinToMaxResolution)
    else None
  }

  /** Every command type is recognised by its own name. */
  lemma CommandOfName(c: CommandType)
    ensures CommandOf(Name(c)) == Some(c)
  {
    match c
    case ListModes =>
    case ListOutputs =>
    case CurrentMode =>
    case CurrentOutput =>
    case CurrentResolution =>
    case CurrentRotation =>
    case CurrentRefresh =>
    case CurrentBackend =>
    case SetMode =>
    case SetOutput =>
    case SetRotation =>
    case GetScreenshot =>
    case MapTouchScreen =>
    case MinToMaxResolution =>
  }

  /** How `parse_cli` ends: the request fields, the usage text (help asked
      for, or no command), an unknown command, or a set command without a
      value (reading the missing first argument throws). */
  datatype ParseOutcome = Parsed(cli: CppCli) | Usage | UnknownCommand | MissingValue

  /** `parse_cli` on the parsed options: `args` holds the positional
      arguments after the command, empty when there are none. */
  function ParseCli(help: bool, command: Option<string>, screen: Option<string>, logTerminal: bool,
                    args: seq<string>): (r: ParseOutcome)
    ensures r == Usage <==> help || command.None?
    ensures r == UnknownCommand <==> !help && command.Some? && CommandOf(command.value).None?
    ensures r == MissingValue <==>
      !help && command.Some? && CommandOf(command.value).Some?
      && IsSetCommand(CommandOf(command.value).value) && args == []
    ensures r.Parsed? ==>
      command.Some? && CommandOf(command.value) == Some(r.cli.command) && r.cli.logTerminal == logTerminal
    ensures r.Parsed? ==> r.cli.args == args && r.cli.screen == screen
    ensures r.Parsed? && IsSetCommand(r.cli.command) ==> args != [] && r.cli.extraArg == args[0]
    ensures r.Parsed? && !IsSetCommand(r.cli.command) ==> r.cli.extraArg == []
  {
    if help || command.None? then Usage
    else match CommandOf(command.value)
      case None => UnknownCommand
      case Some(c) =>
        if IsSetCommand(c) && args == [] then MissingValue
        else Parsed(CppCli(screen, logTerminal, c, args, if IsSetCommand(c) then args[0] else []))
  }

  /** A set command's value is sent twice: once as `extra_arg` after the
      name and again as the first of the arguments. */
  lemma ValueSentTwice(c: CommandType, screen: Option<string>, logTerminal: bool, args: seq<string>)
    requires IsSetCommand(c) && args != []
    ensures ParseCli(false, Some(Name(c)), screen, logTerminal, args).Parsed?
    ensures var cli := ParseCli(false, Some(Name(c)), screen, logTerminal, args).cli;
      Words(cli) == [Name(c), args[0]]
        + (match screen case None => [] case Some(s) => ["--screen", s]) + args
  {
    CommandOfName(c);
  }

  /** A set command with one value and no screen parses to the request
      that carries the value both as `extra_arg` and as its argument. */
  lemma ParsedSetCommand(c: CommandType, value: string, logTerminal: bool)
    requires IsSetCommand(c)
    ensures ParseCli(false, Some(Name(c)), None, logTerminal, [value]) ==
      Parsed(CppCli(None, logTerminal, c, [value], value))
  {
    CommandOfName(c);
  }

  /** The daemon command a command type asks for. */
  function DaemonCommand(c: CommandType): Commands.Command {
    match c
    case ListModes => Commands.ListModes
    case ListOutputs => Commands.ListOutputs
    case CurrentMode => Commands.CurrentMode
    case CurrentOutput => Commands.CurrentOutput
    case CurrentResolution => Commands.CurrentResolution
    case CurrentRotation => Commands.CurrentRotation
    case CurrentRefresh => Commands.CurrentRefresh
    case CurrentBackend => Commands.CurrentBackend
    case SetMode => Commands.SetMode
    case SetOutput => Commands.SetOutput
    case SetRotation => Commands.SetRotation
    case GetScreenshot => Commands.GetScreenshot
    case MapTouchScreen => Commands.MapTouchScreen
    case MinToMaxResolution => Commands.MinToMaxResolution
  }

  /** Every command is sent under the name the daemon registers it
      under. */
  lemma DaemonName(c: CommandType)
    ensures Name(c) == Commands.Name(DaemonCommand(c))
  {
    match c
    case ListModes =>
    case ListOutputs =>
    case CurrentMode =>
    case CurrentOutput =>
    case CurrentResolution =>
    case CurrentRotation =>
    case CurrentRefresh =>
    case CurrentBackend =>
    case SetMode =>
    case SetOutput =>
    case SetRotation =>
    case GetScreenshot =>
    case MapTouchScreen =>
    case MinToMaxResolution =>
  }

  /** A set command with one value and no screen reaches the daemon's
      handler for that command with the value twice as its arguments. */
  lemma RepeatedValueRequest(env: Commands.Services, c: CommandType, d: Commands.Command, value: string, logTerminal: bool)
    requires IsSetCommand(c) && d == DaemonCommand(c) && IsToken(value)
    ensures CommandRegistry.Handle(env, Commands.StandardTable(),
        Join(Words(CppCli(None, logTerminal, c, [value], value)), " ")) ==
      Commands.Outcome(env, d, [value, value])
  {
    var cli := CppCli(None, logTerminal, c, [value], value);
    RepeatedValueTokens(cli);
    DaemonName(c);
    Commands.Request(env, DaemonCommand(c), Join(Words(cli), " "), [value, value]);
  }

  /** The daemon then reads the repeated value as the screen: `setMode v`
      from this client sets mode `v` on the screen named `v`. */
  lemma RepeatedValueTakenAsScreen(env: Commands.Services, mode: string, logTerminal: bool)
    requires IsToken(mode)
    ensures CommandRegistry.Handle(env, Commands.StandardTable(),
        Join(Words(CppCli(None, logTerminal, SetMode, [mode], mode)), " ")) ==
      CommandRegistry.Lift(Commands.SetModeRun(env, Some(mode), mode), "Set to " + mode)
  {
    RepeatedValueRequest(env, SetMode, Commands.SetMode, mode, logTerminal);
    Cli.SetModeOutcome(env, [mode, mode]);
  }

  /** And `setOutput o` from this client carries two arguments, which the
      daemon's one-argument `setOutput` refuses. */
  lemma SetOutputAlwaysRefused(env: Commands.Services, output: string, logTerminal: bool)
    requires IsToken(output)
    ensures CommandRegistry.Handle(env, Commands.StandardTable(),
        Join(Words(CppCli(None, logTerminal, SetOutput, [output], output)), " ")) ==
      Err(CommandRegistry.InvalidArguments(CommandRegistry.ArityMessage("setOutput", 1, 2)))
  {
    RepeatedValueRequest(env, SetOutput, Commands.SetOutput, output, logTerminal);
    SetOutputTwo(env, [output, output]);
  }

  /** The daemon's outcome for `setOutput` with two arguments. */
  lemma SetOutputTwo(env: Commands.Services, args: seq<string>)
    requires |args| == 2
    ensures Commands.Outcome(env, Commands.SetOutput, args) ==
      Err(CommandRegistry.InvalidArguments(CommandRegistry.ArityMessage("setOutput", 1, 2)))
  {
  }

  /** Such a request is three tokens: the name and the value twice. */
  lemma RepeatedValueTokens(cli: CppCli)
    requires IsSetCommand(cli.command) && IsToken(cli.extraArg)
    requires cli.screen.None? && cli.args == [cli.extraArg]
    ensures SplitWhitespace(Join(Words(cli), " ")) == [Name(cli.command)] + [cli.extraArg, cli.extraArg]
  {
    assert Words(cli) == [Name(cli.command)] + [cli.extraArg, cli.extraArg];
    assert IsToken(Name(cli.command));
    SplitWhitespaceJoin(Words(cli));
  }

  /** `parse_cli` with the value taken out of the arguments: a set
      command's first argument becomes `extra_arg` only. */
  function ParseCliCorrected(help: bool, command: Option<string>, screen: Option<string>, logTerminal: bool,
                             args: seq<string>): (r: ParseOutcome)
    ensures r.Parsed? ==> r.cli.screen == screen
    ensures r.Parsed? && IsSetCommand(r.cli.command) ==>
      args != [] && r.cli.extraArg == args[0] && r.cli.args == args[1..]
    ensures r.Parsed? && !IsSetCommand(r.cli.command) ==> r.cli.args == args
  {
    match ParseCli(help, command, screen, logTerminal, args)
    case Parsed(cli) =>
      if IsSetCommand(cli.command) then Parsed(cli.(args := args[1..])) else Parsed(cli)
    case other => other
  }

  /** The same subcommand for the other client. */
  function RustSubcommand(c: CommandType, value: string): Cli.Subcommand {
    match c
    case ListModes => Cli.ListModes
    case ListOutputs => Cli.ListOutputs
    case CurrentMode => Cli.CurrentMode
    case CurrentOutput => Cli.CurrentOutput
    case CurrentResolution => Cli.CurrentResolution
    case CurrentRotation => Cli.CurrentRotation
    case CurrentRefresh => Cli.CurrentRefresh
    case CurrentBackend => Cli.CurrentBackend
    case SetMode => Cli.SetMode(value)
    case SetOutput => Cli.SetOutput(value)
    case SetRotation => Cli.SetRotation(value)
    case GetScreenshot => Cli.GetScreenshot
    case MapTouchScreen => Cli.MapTouchScreen
    case MinToMaxResolution => Cli.MinToMaxResolution
  }

  /** With the value taken out, this client sends exactly what the Rust
      client sends for the same command, value, screen and extra
      arguments. */
  lemma CorrectedMatchesRustClient(c: CommandType, screen: Option<string>, logTerminal: bool,
                                   value: string, rest: seq<string>)
    ensures var r := ParseCliCorrected(false, Some(Name(c)), screen, logTerminal,
                                       if IsSetCommand(c) then [value] + rest else rest);
      r.Parsed? &&
      Words(r.cli) == Cli.Words(Cli.CliArgs(screen, RustSubcommand(c, value), rest))
  {
    CommandOfName(c);
    var args := if IsSetCommand(c) then [value] + rest else rest;
    assert IsSetCommand(c) ==> args[1..] == rest;
    NameAgrees(c, value);
  }

  /** Both clients send the same name for the same command. */
  lemma NameAgrees(c: CommandType, value: string)
    ensures Name(c) == Cli.Name(RustSubcommand(c, value))
  {
      match c
      case ListModes =>
      case ListOutputs =>
      case CurrentMode =>
      case CurrentOutput =>
      case CurrentResolution =>
      case CurrentRotation =>
      case CurrentRefresh =>
      case CurrentBackend =>
      case SetMode =>
      case SetOutput =>
      case SetRotation =>
      case GetScreenshot =>
      case MapTouchScreen =>
      case MinToMaxResolution =>
  }
}
