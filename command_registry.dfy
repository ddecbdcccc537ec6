/** The daemon's command registry (src/bin/daemon/server/command_registry.rs):
    a table from command names to handlers, the dispatch of one request
    line, the four kinds of handler, and the command listing.

    A handler's executor is a function of the environment it runs in (the
    state of the display and of the controller table, type `Env`) and of
    its arguments.  An executor error (`Box<dyn Error>`) is represented by
    its `Display` text. */
module CommandRegistry {
  import opened Wrappers
  import opened Text

  datatype CommandError =
    | InvalidArguments(msg: string)
    | UnknownCommand(cmd: string)
    | ExecutionError(err: string)
    | EmptyCommand

  /** `impl Display for CommandError`. */
  function Display(e: CommandError): string {
    match e
    case InvalidArguments(m) => "Invalid arguments: " + m
    case UnknownCommand(c) => "Unknown command: " + c
    case ExecutionError(err) => "Execution error: " + err
    case EmptyCommand => "Empty command"
  }

  type CommandResult = Result<string, CommandError>

  /** The four handler kinds, each with its description and its executor. */
  datatype Handler<!Env> =
    | SimpleCommand(description: string, run: Env -> Result<string, string>)
    | ArgCommand(name: string, description: string, arity: nat,
                 runWithArgs: (Env, seq<string>) --> Result<Unit, string>)
    | ScreenCommand(description: string, runOnScreen: (Env, Option<string>) -> Result<string, string>)
    | ScreenSetterCommand(description: string, runSetter: (Env, Option<string>, string) -> Result<Unit, string>)

  /** `expected_args`: `SimpleCommand` takes none, `ArgCommand` its fixed
      count, the screen kinds any number. */
  function ExpectedArgs<Env>(h: Handler<Env>): Option<nat> {
    match h
    case SimpleCommand(_, _) => Some(0)
    case ArgCommand(_, _, n, _) => Some(n)
    case ScreenCommand(_, _) => None
    case ScreenSetterCommand(_, _) => None
  }

  /** An `ArgCommand` executor may index its arguments up to its declared
      count (a Rust closure that would panic otherwise): it must be defined
      on every argument list of that length. */
  ghost predicate WellFormed<Env(!new)>(h: Handler<Env>) {
    h.ArgCommand? ==>
      forall env: Env, args: seq<string> :: |args| == h.arity ==> h.runWithArgs.requires(env, args)
  }

  ghost predicate WellFormedTable<Env(!new)>(commands: map<string, Handler<Env>>) {
    forall n :: n in commands ==> WellFormed(commands[n])
  }

  /** A string-returning executor's outcome: the text verbatim, or its
      error as `ExecutionError` carrying it unchanged. */
  function Pass(x: Result<string, string>): (r: CommandResult)
    ensures r.Ok? <==> x.Ok?
    ensures r.Ok? ==> r.value == x.value
    ensures x.Err? ==> r == Err(ExecutionError(x.error))
  {
    match x
    case Ok(text) => Ok(text)
    case Err(e) => Err(ExecutionError(e))
  }

  /** A unit-returning executor's outcome: a fixed confirmation, or its
      error as `ExecutionError` carrying it unchanged. */
  function Lift(x: Result<Unit, string>, success: string): (r: CommandResult)
    ensures r.Ok? <==> x.Ok?
    ensures r.Ok? ==> r.value == success
    ensures x.Err? ==> r == Err(ExecutionError(x.error))
  {
    match x
    case Ok(_) => Ok(success)
    case Err(e) => Err(ExecutionError(e))
  }

  /** `CommandHandler::execute` for each kind. */
  function Execute<Env>(env: Env, h: Handler<Env>, args: seq<string>): (r: CommandResult)
    requires h.ArgCommand? ==> h.runWithArgs.requires(env, args)
    ensures r.Err? ==> r.error.ExecutionError? || r.error == InvalidArguments("Missing required argument")
    ensures r == Err(InvalidArguments("Missing required argument")) <==> h.ScreenSetterCommand? && args == []
    ensures h.SimpleCommand? ==> r == Pass(h.run(env))
    ensures h.ArgCommand? ==> r == Lift(h.runWithArgs(env, args), h.name + " executed successfully")
    ensures h.ScreenCommand? && args == [] ==> r == Pass(h.runOnScreen(env, None))
    ensures h.ScreenCommand? && args != [] ==> r == Pass(h.runOnScreen(env, Some(args[0])))
    ensures h.ScreenSetterCommand? && |args| == 1 ==>
              r == Lift(h.runSetter(env, None, args[0]), "Set to " + args[0])
    ensures h.ScreenSetterCommand? && |args| >= 2 ==>
              r == Lift(h.runSetter(env, Some(args[1]), args[0]), "Set to " + args[0])
  {
    match h
    case SimpleCommand(_, run) =>
      Pass(run(env))
    case ArgCommand(name, _, _, run) =>
      Lift(run(env, args), name + " executed successfully")
    case ScreenCommand(_, run) =>
      Pass(run(env, if args == [] then None else Some(args[0])))
    case ScreenSetterCommand(_, run) =>
      if args == [] then Err(InvalidArguments("Missing required argument"))
      else Lift(run(env, if |args| > 1 then Some(args[1]) else None, args[0]), "Set to " + args[0])
  }

  /** The message of an arity mismatch. */
  function ArityMessage(cmd: string, expected: nat, got: nat): string {
    cmd + " expects " + NatToString(expected) + " arguments, got " + NatToString(got)
  }

  /** `CommandRegistry::handle`: split the line into whitespace tokens,
      look the first one up, check the count of the rest against the
      handler's arity, then run the handler on the rest. */
  function Handle<Env(!new)>(env: Env, commands: map<string, Handler<Env>>, cmdline: string): (r: CommandResult)
    requires WellFormedTable(commands)
    ensures r == Err(EmptyCommand) <==> SplitWhitespace(cmdline) == []
    ensures r.Err? && r.error.UnknownCommand? <==>
              SplitWhitespace(cmdline) != [] && SplitWhitespace(cmdline)[0] !in commands
    ensures r.Err? && r.error.UnknownCommand? ==> r.error.cmd == SplitWhitespace(cmdline)[0]
    ensures var p := SplitWhitespace(cmdline);
      p != [] && p[0] in commands ==>
        r == if ExpectedArgs(commands[p[0]]).Some? && |p| - 1 != ExpectedArgs(commands[p[0]]).value
             then Err(InvalidArguments(ArityMessage(p[0], ExpectedArgs(commands[p[0]]).value, |p| - 1)))
             else Execute(env, commands[p[0]], p[1..])
  {
    var parts := SplitWhitespace(cmdline);
    if parts == [] then Err(EmptyCommand)
    else
      var cmd, args := parts[0], parts[1..];
      if cmd in commands then
        var handler := commands[cmd];
        if ExpectedArgs(handler).Some? && |args| != ExpectedArgs(handler).value then
          Err(InvalidArguments(ArityMessage(cmd, ExpectedArgs(handler).value, |args|)))
        else
          Execute(env, handler, args)
      else
        Err(UnknownCommand(cmd))
  }

  /** The request path on a line made of a name and arguments separated by
      single spaces: the handler sees exactly those arguments, in order. */
  lemma HandleTokens<Env(!new)>(env: Env, commands: map<string, Handler<Env>>, name: string, args: seq<string>)
    requires WellFormedTable(commands)
    requires IsToken(name) && forall a :: a in args ==> IsToken(a)
    ensures Handle(env, commands, Join([name] + args, " ")) ==
      if name !in commands then Err(UnknownCommand(name))
      else if ExpectedArgs(commands[name]).Some? && |args| != ExpectedArgs(commands[name]).value then
        Err(InvalidArguments(ArityMessage(name, ExpectedArgs(commands[name]).value, |args|)))
      else Execute(env, commands[name], args)
  {
    SplitWhitespaceJoin([name] + args);
    assert ([name] + args)[1..] == args;
  }

  /** A blank line, and only a blank line, is an empty command. */
  lemma HandleBlank<Env(!new)>(env: Env, commands: map<string, Handler<Env>>, cmdline: string)
    requires WellFormedTable(commands)
    ensures Handle(env, commands, cmdline) == Err(EmptyCommand) <==> AllWhitespace(cmdline)
  {
    SplitWhitespaceEmpty(cmdline);
  }

  /** A handler with a fixed arity never runs on another count of
      arguments: the outcome is the arity error, whatever the executor. */
  lemma ArityEnforced<Env(!new)>(env: Env, commands: map<string, Handler<Env>>, cmdline: string)
    requires WellFormedTable(commands)
    requires SplitWhitespace(cmdline) != []
    requires SplitWhitespace(cmdline)[0] in commands
    requires ExpectedArgs(commands[SplitWhitespace(cmdline)[0]]).Some?
    requires |SplitWhitespace(cmdline)| - 1 != ExpectedArgs(commands[SplitWhitespace(cmdline)[0]]).value
    ensures Handle(env, commands, cmdline).Err?
    ensures Handle(env, commands, cmdline).error.InvalidArguments?
    ensures Handle(env, commands, cmdline).error.msg ==
      ArityMessage(SplitWhitespace(cmdline)[0], ExpectedArgs(commands[SplitWhitespace(cmdline)[0]]).value,
                   |SplitWhitespace(cmdline)| - 1)
  {
  }

  /** A line whose first token is some other name gives the same outcome
      before and after a registration: no other entry changes. */
  lemma RegisterKeepsOthers<Env(!new)>(env: Env, commands: map<string, Handler<Env>>, name: string, h: Handler<Env>,
                                 cmdline: string)
    requires WellFormedTable(commands) && WellFormed(h)
    requires SplitWhitespace(cmdline) == [] || SplitWhitespace(cmdline)[0] != name
    ensures Handle(env, commands[name := h], cmdline) == Handle(env, commands, cmdline)
  {
  }

  /** A `ScreenCommand` reads only its first argument, as the screen. */
  lemma ScreenCommandFirstOnly<Env>(env: Env, h: Handler<Env>, args: seq<string>)
    requires h.ScreenCommand? && args != []
    ensures Execute(env, h, args) == Execute(env, h, args[..1])
  {
  }

  /** A `ScreenSetterCommand` reads only its first two arguments: the value,
      then the screen. */
  lemma ScreenSetterFirstTwo<Env>(env: Env, h: Handler<Env>, args: seq<string>)
    requires h.ScreenSetterCommand? && |args| >= 2
    ensures Execute(env, h, args) == Execute(env, h, args[..2])
  {
  }

  /** Each registered name with its handler's description. */
  function Describe<Env>(commands: map<string, Handler<Env>>): (descs: map<string, string>)
    ensures descs.Keys == commands.Keys
  {
    map n | n in commands :: commands[n].description
  }

  /** Registering a handler updates the listing by its description. */
  lemma DescribeRegister<Env>(commands: map<string, Handler<Env>>, name: string, h: Handler<Env>)
    ensures Describe(commands[name := h]) == Describe(commands)[name := h.description]
  {
  }

  /** One "name: description" line per name. */
  function Lines(descs: map<string, string>, names: seq<string>): (lines: seq<string>)
    requires forall n :: n in names ==> n in descs
    ensures |lines| == |names|
  {
    if names == [] then []
    else [names[0] + ": " + descs[names[0]]] + Lines(descs, names[1..])
  }

  /** The listing text for a table of descriptions: the lines sorted by
      name and joined by newlines. */
  function Listing(descs: map<string, string>): string {
    Join(Lines(descs, SortedSet(descs.Keys)), "\n")
  }

  /** `CommandRegistry::list_commands`. */
  function ListCommands<Env>(commands: map<string, Handler<Env>>): (r: string)
    ensures r == [] <==> commands == map[]
  {
    ListingEmpty(Describe(commands));
    assert Describe(commands) == map[] <==> commands.Keys == {};
    Listing(Describe(commands))
  }

  /** The listing is empty exactly for an empty registry. */
  lemma ListingEmpty(descs: map<string, string>)
    ensures Listing(descs) == [] <==> descs == map[]
  {
    var names := SortedSet(descs.Keys);
    if descs != map[] {
      var k :| k in descs;
      assert k in names;
      var lines := Lines(descs, names);
      JoinStartsWith(lines, "\n");
      assert |lines[0]| >= 2;
    }
  }

  /** When no name or description holds a newline, splitting the listing
      at newlines recovers one line per command, in ascending name order,
      each naming its command and description. */
  lemma ListingLines(descs: map<string, string>)
    requires descs != map[]
    requires forall n :: n in descs ==> Avoids(n, {'\n'}) && Avoids(descs[n], {'\n'})
    ensures Split(Listing(descs), {'\n'}) == Lines(descs, SortedSet(descs.Keys))
    ensures forall i :: 0 <= i < |descs| ==>
      Lines(descs, SortedSet(descs.Keys))[i]
        == SortedSet(descs.Keys)[i] + ": " + descs[SortedSet(descs.Keys)[i]]
  {
    var names := SortedSet(descs.Keys);
    var k :| k in descs;
    assert k in names;
    LinesAt(descs, names);
    LinesAvoid(descs, names);
    SplitJoin(Lines(descs, names), '\n');
  }

  lemma {:induction false} LinesAvoid(descs: map<string, string>, names: seq<string>)
    requires forall n :: n in names ==> n in descs
    requires forall n :: n in descs ==> Avoids(n, {'\n'}) && Avoids(descs[n], {'\n'})
    ensures forall l :: l in Lines(descs, names) ==> Avoids(l, {'\n'})
  {
    if names != [] {
      LinesAvoid(descs, names[1..]);
      var n := names[0];
      assert n in descs;
      var line := n + ": " + descs[n];
      forall i | 0 <= i < |line| ensures line[i] != '\n' {
        if i < |n| { assert line[i] == n[i]; }
        else if i >= |n| + 2 { assert line[i] == descs[n][i - |n| - 2]; }
      }
    }
  }

  lemma {:induction false} LinesAt(descs: map<string, string>, names: seq<string>)
    requires forall n :: n in names ==> n in descs
    ensures forall i :: 0 <= i < |names| ==>
      Lines(descs, names)[i] == names[i] + ": " + descs[names[i]]
  {
    if names != [] {
      LinesAt(descs, names[1..]);
    }
  }

  /** `CommandRegistry`: the name-to-handler table that `register` fills. */
  class Registry<Env> {
    var commands: map<string, Handler<Env>>

    /** `CommandRegistry::new`: an empty table. */
    constructor ()
      ensures commands == map[]
    {
      commands := map[];
    }

    /** `CommandRegistry::register`: stores the handler under the name,
        silently replacing any handler already there. */
    method Register(name: string, handler: Handler<Env>)
      modifies this
      ensures commands == old(commands)[name := handler]
      ensures name in commands && commands.Keys == old(commands).Keys + {name}
    {
      commands := commands[name := handler];
    }
  }
}
