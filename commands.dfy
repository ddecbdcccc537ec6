/** The daemon's command table (src/bin/daemon/server/commands.rs): the
    eighteen names `init_commands` registers, the kind and arity of each
    handler, and the checks its closure makes before calling into the
    screen or controller layer.

    The closures become named functions of `Services`, the environment the
    commands run in: what each screen and controller function the closures
    call returns there.  An error is represented by its `Display` text. */
module Commands {
  import opened Wrappers
  import opened Text
  import opened CommandRegistry

  /** What the screen and controller functions return in the current
      state of the system; the ones that take arguments are functions of
      them. */
  datatype Services = Services(
    listOutputs: Result<string, string>,
    currentOutput: Result<string, string>,
    currentBackend: Result<string, string>,
    getScreenshot: Result<Unit, string>,
    mapTouchScreen: Result<Unit, string>,
    listModes: Option<string> -> Result<string, string>,
    currentMode: Option<string> -> Result<string, string>,
    currentResolution: Option<string> -> Result<string, string>,
    currentRotation: Option<string> -> Result<string, string>,
    currentRefresh: Option<string> -> Result<string, string>,
    minToMaxResolution: Option<string> -> Result<Unit, string>,
    setMode: (Option<string>, string) -> Result<Unit, string>,
    setOutput: string -> Result<Unit, string>,
    setRotation: (Option<string>, string) -> Result<Unit, string>,
    addController: (nat, string) -> Result<Unit, string>,
    removeController: string -> Result<Unit, string>,
    getController: Result<string, string>)

  /** The commands `init_commands` registers, in registration order. */
  datatype Command =
    | ListCommands | ListOutputs | CurrentOutput | CurrentBackend | GetScreenshot | MapTouchScreen
    | ListModes | CurrentMode | CurrentResolution | CurrentRotation | CurrentRefresh | MinToMaxResolution
    | SetMode | SetOutput | SetRotation | AddController | RemoveController | GetController

  /** The name each command is registered under. */
  function Name(c: Command): string {
    match c
    case ListCommands => "listCommands"
    case ListOutputs => "listOutputs"
    case CurrentOutput => "currentOutput"
    case CurrentBackend => "currentBackend"
    case GetScreenshot => "getScreenshot"
    case MapTouchScreen => "mapTouchScreen"
    case ListModes => "listModes"
    case CurrentMode => "currentMode"
    case CurrentResolution => "currentResolution"
    case CurrentRotation => "currentRotation"
    case CurrentRefresh => "currentRefresh"
    case MinToMaxResolution => "minToMaxResolution"
    case SetMode => "setMode"
    case SetOutput => "setOutput"
    case SetRotation => "setRotation"
    case AddController => "addController"
    case RemoveController => "removeController"
    case GetController => "getController"
  }

  /** The description registered with each command. */
  function Description(c: Command): string {
    match c
    case ListCommands => "List all available commands"
    case ListOutputs => "List all available display outputs"
    case CurrentOutput => "Displays the current output (e.g., HDMI, VGA)"
    case CurrentBackend => "Displays the current window system"
    case GetScreenshot => "Takes a screenshot of the current screen"
    case MapTouchScreen => "Maps the touchscreen to the correct display"
    case ListModes => "Lists all available outputs (e.g., HDMI, VGA)"
    case CurrentMode => "Displays the current display mode for the specified screen"
    case CurrentResolution => "Displays the current resolution for the specified screen"
    case CurrentRotation => "Displays the current screen rotation for the specified screen"
    case CurrentRefresh => "Displays the current refresh rate for the specified screen"
    case MinToMaxResolution => "Sets the screen resolution to the maximum supported resolution"
    case SetMode => "Sets the display mode for the specified screen (e.g., 1920x1080@60)"
    case SetOutput => "Sets the output resolution and refresh rate (e.g., WxH@R or WxH)"
    case SetRotation => "Sets the screen rotation for the specified screen (0, 90, 180, 270)"
    case AddController => "Adds controller to the system by index and GUID"
    case RemoveController => "Remove controller. Specify 1 GUID to remove a specific controller"
    case GetController => "Get all controller configurations"
  }

  /** Commands that take no argument. */
  predicate IsSimple(c: Command) {
    c.ListCommands? || c.ListOutputs? || c.CurrentOutput? || c.CurrentBackend? || c.GetScreenshot? || c.MapTouchScreen? || c.GetController?
  }
  /** Commands that take an optional screen as their first argument. */
  predicate IsScreenQuery(c: Command) {
    c.ListModes? || c.CurrentMode? || c.CurrentResolution? || c.CurrentRotation? || c.CurrentRefresh? || c.MinToMaxResolution?
  }
  /** Commands that take a value and an optional screen. */
  predicate IsSetter(c: Command) {
    c.SetMode? || c.SetRotation?
  }

  /** Commands that take a fixed number of arguments. */
  predicate IsArgCommand(c: Command) {
    c.SetOutput? || c.AddController? || c.RemoveController?
  }

  /** No two commands share a name. */
  lemma NameInjective(c: Command, d: Command)
    requires Name(c) == Name(d)
    ensures c == d
  {
  }

  lemma NamesDistinct()
    ensures forall c, d :: Name(c) == Name(d) ==> c == d
  {
    forall c, d | Name(c) == Name(d)
      ensures c == d
    {
      NameInjective(c, d);
    }
  }

  /** The name-to-description table that `list_commands` renders for the
      registry `init_commands` builds. */
  function Descriptions(): map<string, string> {
    Catalogue(RegistrationOrder(), Description)
  }

  /** The accepted rotation values. */
  const ROTATIONS: seq<string> := ["0", "90", "180", "270"]

  /** A unit outcome turned into a fixed success text. */
  function Confirm(r: Result<Unit, string>, text: string): Result<string, string> {
    match r
    case Ok(_) => Ok(text)
    case Err(e) => Err(e)
  }

  /** listCommands: the listing of a freshly built table. */
  function ListCommandsRun(s: Services): Result<string, string> {
    Ok(Listing(Descriptions()))
  }

  function ListOutputsRun(s: Services): Result<string, string> { s.listOutputs }
  function CurrentOutputRun(s: Services): Result<string, string> { s.currentOutput }
  function CurrentBackendRun(s: Services): Result<string, string> { s.currentBackend }

  function GetScreenshotRun(s: Services): Result<string, string> {
    Confirm(s.getScreenshot, "Screenshot taken")
  }

  function MapTouchScreenRun(s: Services): Result<string, string> {
    Confirm(s.mapTouchScreen, "Touchscreen mapped")
  }

  function ListModesRun(s: Services, screen: Option<string>): Result<string, string> { s.listModes(screen) }
  function CurrentModeRun(s: Services, screen: Option<string>): Result<string, string> { s.currentMode(screen) }
  function CurrentResolutionRun(s: Services, screen: Option<string>): Result<string, string> {
    s.currentResolution(screen)
  }
  function CurrentRotationRun(s: Services, screen: Option<string>): Result<string, string> {
    s.currentRotation(screen)
  }
  function CurrentRefreshRun(s: Services, screen: Option<string>): Result<string, string> {
    s.currentRefresh(screen)
  }

  function MinToMaxRun(s: Services, screen: Option<string>): Result<string, string> {
    Confirm(s.minToMaxResolution(screen), "Resolution set to maximum")
  }

  function SetModeRun(s: Services, screen: Option<string>, mode: string): Result<Unit, string> {
    s.setMode(screen, mode)
  }

  function SetOutputRun(s: Services, args: seq<string>): Result<Unit, string>
    requires |args| >= 1
  {
    s.setOutput(args[0])
  }

  /** The message for a rotation outside the accepted values. */
  function InvalidRotationMessage(rotation: string): string {
    "Invalid rotation: '" + rotation + "'. Valid options are: 0, 90, 180, 270"
  }

  /** setRotation: the value is checked before the screen layer is
      called. */
  function SetRotationRun(s: Services, screen: Option<string>, rotation: string): Result<Unit, string> {
    if rotation !in ROTATIONS then Err(InvalidRotationMessage(rotation))
    else s.setRotation(screen, rotation)
  }

  function InvalidIndexMessage(index: string): string {
    "Invalid index: " + index + ". Index must be a positive integer."
  }

  /** addController: both arguments trimmed, the index parsed as a `usize`,
      the GUID checked for emptiness, then the controller layer called. */
  function AddControllerRun(s: Services, args: seq<string>): Result<Unit, string>
    requires |args| >= 2
  {
    var index, guid := Trim(args[0]), Trim(args[1]);
    match ParseUsize(index)
    case Err(_) => Err(InvalidIndexMessage(index))
    case Ok(i) =>
      if guid == [] then Err("GUID cannot be empty.")
      else s.addController(i, guid)
  }

  /** removeController, with its own count check. */
  function RemoveControllerRun(s: Services, args: seq<string>): Result<Unit, string> {
    if |args| != 1 then Err("Expected exactly 1 controller GUID.")
    else
      var guid := Trim(args[0]);
      if guid == [] then Err("GUID cannot be empty.")
      else s.removeController(guid)
  }

  /** getController: an empty JSON object reads as a sentence. */
  function GetControllerRun(s: Services): Result<string, string> {
    match s.getController
    case Ok(json) => Ok(if json == "{}" then "No controllers configured" else json)
    case Err(e) => Err(e)
  }

  /** The closure of each command without arguments. */
  function SimpleRun(c: Command): Services -> Result<string, string>
    requires IsSimple(c)
  {
    match c
    case ListCommands => ListCommandsRun
    case ListOutputs => ListOutputsRun
    case CurrentOutput => CurrentOutputRun
    case CurrentBackend => CurrentBackendRun
    case GetScreenshot => GetScreenshotRun
    case MapTouchScreen => MapTouchScreenRun
    case GetController => GetControllerRun
  }

  /** The closure of each screen query. */
  function QueryRun(c: Command): (Services, Option<string>) -> Result<string, string>
    requires IsScreenQuery(c)
  {
    match c
    case ListModes => ListModesRun
    case CurrentMode => CurrentModeRun
    case CurrentResolution => CurrentResolutionRun
    case CurrentRotation => CurrentRotationRun
    case CurrentRefresh => CurrentRefreshRun
    case MinToMaxResolution => MinToMaxRun
  }

  /** The closure of each setter. */
  function SetterRun(c: Command): (Services, Option<string>, string) -> Result<Unit, string>
    requires IsSetter(c)
  {
    match c
    case SetMode => SetModeRun
    case SetRotation => SetRotationRun
  }

  /** The declared argument count of each fixed-arity command. */
  function Arity(c: Command): nat
    requires IsArgCommand(c)
  {
    if c == AddController then 2 else 1
  }

  /** The closure of each fixed-arity command. */
  function ArgRun(c: Command): (Services, seq<string>) --> Result<Unit, string>
    requires IsArgCommand(c)
  {
    match c
    case SetOutput => SetOutputRun
    case AddController => AddControllerRun
    case RemoveController => RemoveControllerRun
  }

  /** The handler `init_commands` registers for a command, given its
      description: the kind follows the group the command belongs to. */
  function Entry(c: Command, description: string): Handler<Services> {
    if IsSimple(c) then SimpleCommand(description, SimpleRun(c))
    else if IsScreenQuery(c) then ScreenCommand(description, QueryRun(c))
    else if IsSetter(c) then ScreenSetterCommand(description, SetterRun(c))
    else ArgCommand(Name(c), description, Arity(c), ArgRun(c))
  }

  /** The command `init_commands` registers `i`-th. */
  function CommandAt(i: nat): Command
    requires i < 18
  {
    if i == 0 then ListCommands
    else if i == 1 then ListOutputs
    else if i == 2 then CurrentOutput
    else if i == 3 then CurrentBackend
    else if i == 4 then GetScreenshot
    else if i == 5 then MapTouchScreen
    else if i == 6 then ListModes
    else if i == 7 then CurrentMode
    else if i == 8 then CurrentResolution
    else if i == 9 then CurrentRotation
    else if i == 10 then CurrentRefresh
    else if i == 11 then MinToMaxResolution
    else if i == 12 then SetMode
    else if i == 13 then SetOutput
    else if i == 14 then SetRotation
    else if i == 15 then AddController
    else if i == 16 then RemoveController
    else GetController
  }

  /** Where a command comes in the registration order. */
  function Position(c: Command): (i: nat)
    ensures i < 18 && CommandAt(i) == c
  {
    match c
    case ListCommands => 0
    case ListOutputs => 1
    case CurrentOutput => 2
    case CurrentBackend => 3
    case GetScreenshot => 4
    case MapTouchScreen => 5
    case ListModes => 6
    case CurrentMode => 7
    case CurrentResolution => 8
    case CurrentRotation => 9
    case CurrentRefresh => 10
    case MinToMaxResolution => 11
    case SetMode => 12
    case SetOutput => 13
    case SetRotation => 14
    case AddController => 15
    case RemoveController => 16
    case GetController => 17
  }

  /** The commands in the order `init_commands` registers them. */
  function RegistrationOrder(): seq<Command> {
    seq(18, i requires 0 <= i < 18 => CommandAt(i))
  }

  /** The table after registering the commands of `order`, one after
      another, each under its name with the description `desc` gives it. */
  function Build(order: seq<Command>, desc: Command -> string): map<string, Handler<Services>> {
    if order == [] then map[]
    else
      var last := order[|order| - 1];
      Build(order[..|order| - 1], desc)[Name(last) := Entry(last, desc(last))]
  }

  /** The descriptions of the commands of `order` under their names. */
  function Catalogue(order: seq<Command>, desc: Command -> string): map<string, string> {
    if order == [] then map[]
    else
      var last := order[|order| - 1];
      Catalogue(order[..|order| - 1], desc)[Name(last) := desc(last)]
  }

  /** Listing the built table shows the catalogue of its descriptions. */
  lemma {:induction false} DescribeBuild(order: seq<Command>, desc: Command -> string)
    ensures Describe(Build(order, desc)) == Catalogue(order, desc)
  {
    if order != [] {
      var last := order[|order| - 1];
      DescribeBuild(order[..|order| - 1], desc);
      DescribeRegister(Build(order[..|order| - 1], desc), Name(last), Entry(last, desc(last)));
    }
  }

  /** One more registration. */
  lemma BuildStep(order: seq<Command>, desc: Command -> string, k: nat)
    requires k < |order|
    ensures Build(order[..k + 1], desc) == Build(order[..k], desc)[Name(order[k]) := Entry(order[k], desc(order[k]))]
  {
    assert order[..k + 1][..k] == order[..k];
  }

  /** A name is in the table exactly when its command was registered, and
      it then maps to that command's handler. */
  lemma {:induction false} BuildLookup(order: seq<Command>, desc: Command -> string, c: Command)
    ensures Name(c) in Build(order, desc) <==> c in order
    ensures c in order ==> Build(order, desc)[Name(c)] == Entry(c, Build(order, desc)[Name(c)].description)
  {
    if order != [] {
      var init, last := order[..|order| - 1], order[|order| - 1];
      assert order == init + [last];
      BuildLookup(init, desc, c);
      if Name(c) == Name(last) {
        NameInjective(c, last);
      }
    }
  }

  /** A registered command's handler carries the description `desc` gives
      it. */
  lemma {:induction false} BuildDescription(order: seq<Command>, desc: Command -> string, c: Command)
    requires c in order
    ensures Name(c) in Build(order, desc) && Build(order, desc)[Name(c)].description == desc(c)
  {
    var init, last := order[..|order| - 1], order[|order| - 1];
    assert order == init + [last];
    if Name(c) == Name(last) {
      NameInjective(c, last);
    } else {
      BuildDescription(init, desc, c);
    }
  }

  /** Every key of the table is the name of a registered command. */
  lemma {:induction false} BuildKeys(order: seq<Command>, desc: Command -> string, k: string)
    requires k in Build(order, desc)
    ensures exists c :: c in order && Name(c) == k
  {
    var init, last := order[..|order| - 1], order[|order| - 1];
    assert order == init + [last];
    if k != Name(last) {
      BuildKeys(init, desc, k);
    }
  }

  /** Each `ArgCommand` closure indexes only the arguments its arity
      guarantees. */
  lemma EntriesWellFormed()
    ensures forall c, d :: WellFormed(Entry(c, d))
  {
  }

  /** A table built of these handlers is well formed. */
  lemma {:induction false} BuildWellFormed(order: seq<Command>, desc: Command -> string)
    ensures WellFormedTable(Build(order, desc))
  {
    if order != [] {
      EntriesWellFormed();
      BuildWellFormed(order[..|order| - 1], desc);
    }
  }

  /** Every command is registered. */
  lemma AllRegistered(c: Command)
    ensures c in RegistrationOrder()
  {
    assert RegistrationOrder()[Position(c)] == c;
  }

  /** The table `init_commands` builds: every command's handler under its
      name, with its description, registered in order. */
  function StandardTable(): (t: map<string, Handler<Services>>)
    ensures WellFormedTable(t)
  {
    BuildWellFormed(RegistrationOrder(), Description);
    Build(RegistrationOrder(), Description)
  }

  /** `init_commands`: a fresh registry filled by one `register` call per
      command, in the order of `RegistrationOrder`; each call registers the
      command's handler under its name, with its description. */
  method InitCommands() returns (registry: Registry<Services>)
    ensures fresh(registry)
    ensures registry.commands == StandardTable()
  {
    registry := new Registry();
    var order := RegistrationOrder();
    for k := 0 to |order|
      invariant registry.commands == Build(order[..k], Description)
    {
      var c := order[k];
      registry.Register(Name(c), Entry(c, Description(c)));
      BuildStep(order, Description, k);
    }
    assert order[..|order|] == order;
  }

  /** Every command's name maps to a handler of its kind. */
  lemma StandardLookup(c: Command)
    ensures Name(c) in StandardTable()
    ensures StandardTable()[Name(c)] == Entry(c, StandardTable()[Name(c)].description)
  {
    AllRegistered(c);
    BuildLookup(RegistrationOrder(), Description, c);
  }

  /** The registered names are exactly the commands' names. */
  lemma StandardKeys(k: string)
    ensures k in StandardTable() <==> exists c :: Name(c) == k
  {
    if k in StandardTable() {
      BuildKeys(RegistrationOrder(), Description, k);
    } else {
      forall c ensures Name(c) != k {
        StandardLookup(c);
      }
    }
  }

  /** Every command's handler carries its description. */
  lemma StandardDescription(c: Command)
    ensures Name(c) in StandardTable() && StandardTable()[Name(c)].description == Description(c)
  {
    AllRegistered(c);
    BuildDescription(RegistrationOrder(), Description, c);
  }

  /** What a request naming command `c` with arguments `args` yields, read
      off the command's group: the arity check for the fixed-arity kinds,
      then the closure with its arguments in place. */
  function Outcome(s: Services, c: Command, args: seq<string>): CommandResult {
    if IsSimple(c) then
      if args != [] then Err(InvalidArguments(ArityMessage(Name(c), 0, |args|)))
      else Pass(SimpleRun(c)(s))
    else if IsScreenQuery(c) then
      Pass(QueryRun(c)(s, if args == [] then None else Some(args[0])))
    else if IsSetter(c) then
      if args == [] then Err(InvalidArguments("Missing required argument"))
      else Lift(SetterRun(c)(s, if |args| > 1 then Some(args[1]) else None, args[0]), "Set to " + args[0])
    else if |args| != Arity(c) then Err(InvalidArguments(ArityMessage(Name(c), Arity(c), |args|)))
    else Lift(ArgRun(c)(s, args), Name(c) + " executed successfully")
  }

  /** A request whose tokens are a command's name and then its arguments
      has the outcome its group prescribes. */
  lemma Request(s: Services, c: Command, cmdline: string, args: seq<string>)
    requires SplitWhitespace(cmdline) == [Name(c)] + args
    ensures Handle(s, StandardTable(), cmdline) == Outcome(s, c, args)
  {
    StandardLookup(c);
    var h := StandardTable()[Name(c)];
    assert SplitWhitespace(cmdline)[1..] == args;
    EntryRuns(s, c, h.description, args);
  }

  /** The handler registered for a command, past the registry's arity
      check, yields the outcome its group prescribes. */
  lemma EntryRuns(s: Services, c: Command, description: string, args: seq<string>)
    ensures var h := Entry(c, description);
      (if ExpectedArgs(h).Some? && |args| != ExpectedArgs(h).value then
         Err(InvalidArguments(ArityMessage(Name(c), ExpectedArgs(h).value, |args|)))
       else Execute(s, h, args)) == Outcome(s, c, args)
  {
    EntriesWellFormed();
  }

  /** A command without arguments refuses any extra token: the outcome is
      the arity error, whatever the screen layer would say. */
  lemma SimpleRejectsArguments(s: Services, c: Command, args: seq<string>)
    requires IsSimple(c) && args != []
    ensures Outcome(s, c, args) == Err(InvalidArguments(ArityMessage(Name(c), 0, |args|)))
    ensures Outcome(s, c, []) == Pass(SimpleRun(c)(s))
  {
  }

  /** A screen query runs on any number of tokens; the first one, if any,
      is the screen, and the rest are ignored. */
  lemma ScreenQueryUsesFirstToken(s: Services, c: Command, screen: string, rest: seq<string>)
    requires IsScreenQuery(c)
    ensures Outcome(s, c, []) == Pass(QueryRun(c)(s, None))
    ensures Outcome(s, c, [screen] + rest) == Pass(QueryRun(c)(s, Some(screen)))
  {
  }

  /** A fixed-arity command runs only on exactly its count of tokens:
      one for setOutput and removeController, two for addController. */
  lemma FixedArity(s: Services, c: Command, args: seq<string>)
    requires IsArgCommand(c) && |args| != Arity(c)
    ensures Arity(c) == if c == AddController then 2 else 1
    ensures Outcome(s, c, args) == Err(InvalidArguments(ArityMessage(Name(c), Arity(c), |args|)))
  {
  }

  /** setRotation refuses a value outside 0, 90, 180 and 270 with an
      execution error naming it, whatever the screen layer would do;
      an accepted value goes to the screen layer with the second token as
      the screen. */
  lemma SetRotationChecksValue(s: Services, value: string, rest: seq<string>)
    ensures value !in ROTATIONS ==>
      Outcome(s, SetRotation, [value] + rest) == Err(ExecutionError(InvalidRotationMessage(value)))
    ensures value in ROTATIONS ==>
      Outcome(s, SetRotation, [value] + rest) ==
        Lift(s.setRotation(if rest == [] then None else Some(rest[0]), value), "Set to " + value)
  {
    assert ([value] + rest)[0] == value;
    assert |rest| > 0 ==> ([value] + rest)[1] == rest[0];
  }

  /** setMode hands its value and the second token, as the screen, to the
      screen layer, and confirms with the value; with no token it reports
      the missing argument. */
  lemma SetModeForwards(s: Services, mode: string, rest: seq<string>)
    ensures Outcome(s, SetMode, []) == Err(InvalidArguments("Missing required argument"))
    ensures Outcome(s, SetMode, [mode] + rest) ==
      Lift(s.setMode(if rest == [] then None else Some(rest[0]), mode), "Set to " + mode)
  {
    assert ([mode] + rest)[0] == mode;
    assert |rest| > 0 ==> ([mode] + rest)[1] == rest[0];
  }

  /** addController: an index that is not an unsigned integer, or a blank
      GUID, is refused before the controller layer is called; otherwise the
      trimmed values are handed on. */
  lemma AddControllerChecks(s: Services, index: string, guid: string)
    ensures ParseUsize(Trim(index)).Err? ==>
      Outcome(s, AddController, [index, guid]) == Err(ExecutionError(InvalidIndexMessage(Trim(index))))
    ensures ParseUsize(Trim(index)).Ok? && Trim(guid) == [] ==>
      Outcome(s, AddController, [index, guid]) == Err(ExecutionError("GUID cannot be empty."))
    ensures ParseUsize(Trim(index)).Ok? && Trim(guid) != [] ==>
      Outcome(s, AddController, [index, guid]) ==
        Lift(s.addController(ParseUsize(Trim(index)).value, Trim(guid)), Name(AddController) + " executed successfully")
  {
    AddControllerOutcome(s, [index, guid]);
  }

  /** addController's outcome is its run, confirmed by the generic
      sentence. */
  lemma AddControllerOutcome(s: Services, args: seq<string>)
    requires |args| == 2
    ensures Outcome(s, AddController, args) == Lift(AddControllerRun(s, args), Name(AddController) + " executed successfully")
  {
    assert !IsSimple(AddController) && !IsScreenQuery(AddController) && !IsSetter(AddController);
    assert Arity(AddController) == 2 && ArgRun(AddController) == AddControllerRun;
  }

  /** The fixed confirmations: a success of the screen or controller layer
      is reported by a sentence, and an empty controller table reads as
      one. */
  lemma Confirmations(s: Services, screen: Option<string>)
    ensures s.getScreenshot.Ok? ==> Outcome(s, GetScreenshot, []) == Ok("Screenshot taken")
    ensures s.mapTouchScreen.Ok? ==> Outcome(s, MapTouchScreen, []) == Ok("Touchscreen mapped")
    ensures s.minToMaxResolution(screen).Ok? ==>
      Outcome(s, MinToMaxResolution, if screen.Some? then [screen.value] else []) == Ok("Resolution set to maximum")
    ensures s.getController == Ok("{}") ==> Outcome(s, GetController, []) == Ok("No controllers configured")
    ensures s.getController.Ok? && s.getController.value != "{}" ==>
      Outcome(s, GetController, []) == Ok(s.getController.value)
  {
  }

  /** The listing `listCommands` replies with is the listing of the table
      `init_commands` builds. */
  lemma ListCommandsReply(s: Services)
    ensures Outcome(s, ListCommands, []) == Ok(CommandRegistry.ListCommands(StandardTable()))
  {
    DescribeBuild(RegistrationOrder(), Description);
  }
}
