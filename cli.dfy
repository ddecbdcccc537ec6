/** The command-line client (src/bin/cli/main.rs): the request line it
    builds from the parsed arguments, and how it reads the daemon's
    reply. */
module Cli {
  import opened Wrappers
  import opened Text
  import Utf8
  import Commands
  import CommandRegistry

  /** The subcommands the client accepts, with their values. */
  datatype Subcommand =
    | ListModes | ListOutputs | CurrentMode | CurrentOutput | CurrentResolution | CurrentRotation
    | CurrentRefresh | CurrentBackend
    | SetMode(mode: string) | SetOutput(output: string) | SetRotation(rotation: string)
    | GetScreenshot | MapTouchScreen | MinToMaxResolution

  /** The parsed command line: the optional screen, the subcommand and the
      arguments after `--`. */
  datatype CliArgs = CliArgs(screen: Option<string>, command: Subcommand, args: seq<string>)

  /** The values the argument parser lets through for `setRotation`. */
  const ROTATION_VALUES: seq<string> := ["0", "90", "180", "270"]

  predicate Accepted(cli: CliArgs) {
    cli.command.SetRotation? ==> cli.command.rotation in ROTATION_VALUES
  }

  /** The daemon command each subcommand asks for. */
  function DaemonCommand(c: Subcommand): Commands.Command {
    match c
    case ListModes => Commands.ListModes
    case ListOutputs => Commands.ListOutputs
    case CurrentMode => Commands.CurrentMode
    case CurrentOutput => Commands.CurrentOutput
    case CurrentResolution => Commands.CurrentResolution
    case CurrentRotation => Commands.CurrentRotation
    case CurrentRefresh => Commands.CurrentRefresh
    case CurrentBackend => Commands.CurrentBackend
    case SetMode(_) => Commands.SetMode
    case SetOutput(_) => Commands.SetOutput
    case SetRotation(_) => Commands.SetRotation
    case GetScreenshot => Commands.GetScreenshot
    case MapTouchScreen => Commands.MapTouchScreen
    case MinToMaxResolution => Commands.MinToMaxResolution
  }

  /** The camelCase name the request starts with: the name the daemon
      registers the command under. */
  function Name(c: Subcommand): (r: string)
    ensures r == Commands.Name(DaemonCommand(c))
  {
    match c
    case ListModes => "listModes"
    case ListOutputs => "listOutputs"
    case CurrentMode => "currentMode"
    case CurrentOutput => "currentOutput"
    case CurrentResolution => "currentResolution"
    case CurrentRotation => "currentRotation"
    case CurrentRefresh => "currentRefresh"
    case CurrentBackend => "currentBackend"
    case SetMode(_) => "setMode"
    case SetOutput(_) => "setOutput"
    case SetRotation(_) => "setRotation"
    case GetScreenshot => "getScreenshot"
    case MapTouchScreen => "mapTouchScreen"
    case MinToMaxResolution => "minToMaxResolution"
  }

  /** The value a setter carries, as a word of its own. */
  function ValueWords(c: Subcommand): seq<string> {
    match c
    case SetMode(mode) => [mode]
    case SetOutput(output) => [output]
    case SetRotation(rotation) => [rotation]
    case _ => []
  }

  function ScreenWords(screen: Option<string>): seq<string> {
    match screen
    case None => []
    case Some(s) => ["--screen", s]
  }

  /** The words of the request: the name, the value, the screen option and
      the extra arguments. */
  function Words(cli: CliArgs): (r: seq<string>)
    ensures r != [] && r[0] == Name(cli.command)
  {
    [Name(cli.command)] + ValueWords(cli.command) + ScreenWords(cli.screen) + cli.args
  }

  /** The request `handle_command` sends: the command, its value, then
      ` --screen <s>` when a screen is given, then the extra arguments
      after one space. */
  method BuildRequest(cli: CliArgs) returns (msg: string)
    ensures msg == Join(Words(cli), " ")
  {
    msg := PushCommand(cli.command);
    ghost var head := [Name(cli.command)] + ValueWords(cli.command);
    if cli.screen.Some? {
      msg := msg + " --screen ";
      msg := msg + cli.screen.value;
      ScreenStep(head, cli.screen.value);
    }
    head := head + ScreenWords(cli.screen);
    assert msg == Join(head, " ");
    if cli.args != [] {
      msg := msg + " ";
      msg := msg + Join(cli.args, " ");
      JoinAppend(head, cli.args, " ");
      assert msg == Join(head, " ") + " " + Join(cli.args, " ");
    } else {
      assert head + cli.args == head;
    }
    assert head + cli.args == Words(cli);
  }

  /** The first step of `handle_command`: the command's name, and for a
      setter one space and the value. */
  method PushCommand(c: Subcommand) returns (msg: string)
    ensures msg == Join([Name(c)] + ValueWords(c), " ")
  {
    msg := [];
    match c {
      case SetMode(mode) =>
        msg := msg + "setMode ";
        msg := msg + mode;
        PairJoin("setMode", mode);
      case SetOutput(output) =>
        msg := msg + "setOutput ";
        msg := msg + output;
        PairJoin("setOutput", output);
      case SetRotation(rotation) =>
        msg := msg + "setRotation ";
        msg := msg + rotation;
        PairJoin("setRotation", rotation);
      case _ =>
        msg := msg + Name(c);
        assert [Name(c)] + ValueWords(c) == [Name(c)];
    }
  }

  /** A name and a value make one space-separated pair. */
  lemma PairJoin(name: string, value: string)
    ensures [] + (name + " ") + value == Join([name] + [value], " ")
  {
    assert ([name] + [value])[1..] == [value];
  }

  lemma ScreenStep(head: seq<string>, screen: string)
    requires head != []
    ensures Join(head, " ") + " --screen " + screen == Join(head + ["--screen", screen], " ")
  {
    JoinAppend(head, ["--screen", screen], " ");
    assert Join(["--screen", screen], " ") == "--screen" + " " + screen;
    var j := Join(head, " ");
    assert j + " " + ("--screen" + " " + screen) == j + " --screen " + screen;
  }

  /** When every word is a whitespace-free token, the daemon's tokeniser
      sees exactly the request's words: the name first, then the value, then
      `--screen` and the screen as two more arguments, then the extra
      arguments. */
  lemma RequestTokens(cli: CliArgs)
    requires forall w :: w in Words(cli) ==> IsToken(w)
    ensures SplitWhitespace(Join(Words(cli), " ")) == Words(cli)
  {
    SplitWhitespaceJoin(Words(cli));
  }

  /** A setter request with a screen is four tokens: the name, the value,
      `--screen` and the screen. */
  lemma SetterTokens(c: Subcommand, screen: string)
    requires ValueWords(c) != [] && IsToken(ValueWords(c)[0]) && IsToken(screen)
    ensures SplitWhitespace(Join(Words(CliArgs(Some(screen), c, [])), " ")) ==
      [Name(c)] + [ValueWords(c)[0], "--screen", screen]
  {
    var cli := CliArgs(Some(screen), c, []);
    assert Words(cli) == [Name(c)] + [ValueWords(c)[0], "--screen", screen];
    assert IsToken(Name(c)) && IsToken("--screen");
    RequestTokens(cli);
  }

  /** The screen option is not picked out by the daemon: a `setMode`
      request with a screen reaches the mode setter with "--screen" as the
      screen, and the screen the user named is dropped. */
  lemma ScreenOptionTakenAsScreen(env: Commands.Services, mode: string, screen: string)
    requires IsToken(mode) && IsToken(screen)
    ensures
      var line := Join(Words(CliArgs(Some(screen), SetMode(mode), [])), " ");
      CommandRegistry.Handle(env, Commands.StandardTable(), line) ==
        CommandRegistry.Lift(Commands.SetModeRun(env, Some("--screen"), mode), "Set to " + mode)
  {
    var line := Join(Words(CliArgs(Some(screen), SetMode(mode), [])), " ");
    var args := [mode, "--screen", screen];
    SetterTokens(SetMode(mode), screen);
    Commands.Request(env, Commands.SetMode, line, args);
    SetModeOutcome(env, args);
  }

  /** The daemon's outcome for `setMode` with at least two arguments: the
      first is the mode, the second the screen. */
  lemma SetModeOutcome(env: Commands.Services, args: seq<string>)
    requires |args| >= 2
    ensures Commands.Outcome(env, Commands.SetMode, args) ==
      CommandRegistry.Lift(Commands.SetModeRun(env, Some(args[1]), args[0]), "Set to " + args[0])
  {
  }

  /** The argument parser's restriction and the daemon's rotation check
      agree: a `setRotation` request without screen or extra arguments
      reaches the screen layer exactly when the parser accepts its value,
      and otherwise the daemon refuses it with its rotation message. */
  lemma AcceptedRotationPasses(env: Commands.Services, rotation: string)
    requires IsToken(rotation)
    ensures
      var cli := CliArgs(None, SetRotation(rotation), []);
      var line := Join(Words(cli), " ");
      CommandRegistry.Handle(env, Commands.StandardTable(), line) ==
        if Accepted(cli) then
          CommandRegistry.Lift(env.setRotation(None, rotation), "Set to " + rotation)
        else
          Err(CommandRegistry.ExecutionError(Commands.InvalidRotationMessage(rotation)))
  {
    var cli := CliArgs(None, SetRotation(rotation), []);
    var line := Join(Words(cli), " ");
    assert Words(cli) == ["setRotation", rotation];
    assert IsToken("setRotation");
    RequestTokens(cli);
    Commands.Request(env, Commands.SetRotation, line, [rotation]);
    assert [rotation] == [rotation] + [];
    Commands.SetRotationChecksValue(env, rotation, []);
  }

  /** `setOutput` takes exactly one argument, so a `setOutput` request
      with a screen is refused by the daemon's argument count. */
  lemma ScreenBreaksSetOutput(env: Commands.Services, output: string, screen: string)
    requires IsToken(output) && IsToken(screen)
    ensures
      var line := Join(Words(CliArgs(Some(screen), SetOutput(output), [])), " ");
      CommandRegistry.Handle(env, Commands.StandardTable(), line) ==
        Err(CommandRegistry.InvalidArguments(CommandRegistry.ArityMessage("setOutput", 1, 3)))
  {
    var line := Join(Words(CliArgs(Some(screen), SetOutput(output), [])), " ");
    var args := [output, "--screen", screen];
    SetterTokens(SetOutput(output), screen);
    Commands.Request(env, Commands.SetOutput, line, args);
    SetOutputOutcome(env, args);
  }

  /** The daemon's outcome for `setOutput` with three arguments. */
  lemma SetOutputOutcome(env: Commands.Services, args: seq<string>)
    requires |args| == 3
    ensures Commands.Outcome(env, Commands.SetOutput, args) ==
      Err(CommandRegistry.InvalidArguments(CommandRegistry.ArityMessage("setOutput", 1, 3)))
  {
  }

  /** The reply's text: the first frame decoded as UTF-8, or the empty
      string when the reply has no frame. */
  function ReplyText(frames: seq<seq<Utf8.Byte>>): (r: Result<string, Utf8.Utf8Error>)
    ensures frames == [] ==> r == Ok([])
    ensures frames != [] ==> r == Utf8.FromUtf8(frames[0])
  {
    if frames == [] then Ok([]) else Utf8.FromUtf8(frames[0])
  }

  /** A reply whose first frame encodes a text reads back as that text,
      whatever frames follow. */
  lemma ReplyRoundTrip(text: string, rest: seq<seq<Utf8.Byte>>)
    ensures ReplyText([Utf8.Encode(text)] + rest) == Ok(text)
  {
    Utf8.FromUtf8Encode(text);
  }
}
