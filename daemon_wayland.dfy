/** The daemon's Wayland backend (src/bin/daemon/screen/wayland.rs): how it
    reads sway outputs and which IPC commands it sends.  The outputs and
    inputs come from the connection; every failure of a request or of a
    reply becomes a `BackendError` of the "Wayland" backend. */
module DaemonWayland {
  import opened Wrappers
  import opened Text
  import opened UtilsError
  import opened Backend
  import opened Sway

  const WAYLAND: string := "Wayland"

  /** The error a failed IPC request or reply becomes. */
  function Failed(message: string): RegmsgError {
    BackendError(WAYLAND, message)
  }

  /** The error a failed command loop returns. */
  function LoopError(f: Sway.Failure): RegmsgError
    requires !f.reply.Applied?
  {
    Failed(f.reply.error)
  }

  const ROTATIONS: set<int> := {0, 90, 180, 270}

  /** The transform texts sway reports for an angle. */
  function Spellings(angle: nat): set<string>
    requires angle in {90, 180, 270}
  {
    if angle == 90 then {"90", "90°", "rotated-90"}
    else if angle == 180 then {"180", "180°", "rotated-180"}
    else {"270", "270°", "rotated-270"}
  }

  /** The angle of a transform: three spellings each for 90, 180 and 270;
      anything else, or no transform, is 0. */
  function TransformDegrees(transform: Option<string>): (angle: U32)
    ensures angle in ROTATIONS
    ensures transform.None? ==> angle == 0
    ensures transform.Some? && angle != 0 ==> transform.value in Spellings(angle)
    ensures forall a :: a in {90, 180, 270} && transform.Some? && transform.value in Spellings(a) ==> angle == a
  {
    match transform
    case None => 0
    case Some(t) =>
      if t in Spellings(90) then 90
      else if t in Spellings(180) then 180
      else if t in Spellings(270) then 270
      else 0
  }

  /** A transform that is not one of the nine spellings, such as "normal"
      or "flipped-90", reads as no rotation. */
  lemma OtherTransformsAreZero()
    ensures TransformDegrees(Some("normal")) == 0
    ensures TransformDegrees(Some("flipped-90")) == 0
  {
    assert "normal" !in Spellings(90) + Spellings(180) + Spellings(270);
    assert "flipped-90" !in Spellings(90) + Spellings(180) + Spellings(270);
  }

  /** The mode record the backend reports for a sway mode.  `hz` is the
      conversion of a refresh in mHz to whole Hz, which the backend does in
      floating point. */
  function ToDisplayMode(m: SwayMode, hz: int -> U32): (d: DisplayMode)
    ensures d.width == AsU32(m.width) && d.height == AsU32(m.height) && d.refreshRate == hz(m.refresh)
  {
    DisplayMode(AsU32(m.width), AsU32(m.height), hz(m.refresh),
      IntToString(m.width) + "x" + IntToString(m.height) + "@" + NatToString(hz(m.refresh)) + "Hz")
  }

  function ToDisplayModes(modes: seq<SwayMode>, hz: int -> U32): (r: seq<DisplayMode>)
    ensures |r| == |modes|
    ensures forall i :: 0 <= i < |modes| ==> r[i] == ToDisplayMode(modes[i], hz)
  {
    seq(|modes|, i requires 0 <= i < |modes| => ToDisplayMode(modes[i], hz))
  }

  /** `convert_output_sway_to_internal`: the name and modes are kept, the
      output counts as connected, and the transform becomes an angle. */
  function ToDisplayOutput(o: SwayOutput, hz: int -> U32): (d: DisplayOutput)
    ensures d.name == o.name && d.isConnected
    ensures d.modes == ToDisplayModes(o.modes, hz)
    ensures d.currentMode.Some? <==> o.currentMode.Some?
    ensures d.rotation == TransformDegrees(o.transform) && d.rotation in ROTATIONS
  {
    DisplayOutput(
      o.name,
      ToDisplayModes(o.modes, hz),
      if o.currentMode.Some? then Some(ToDisplayMode(o.currentMode.value, hz)) else None,
      true,
      TransformDegrees(o.transform))
  }

  /** `list_outputs`: every sway output, converted. */
  function ListOutputs(conn: SwayConnection, hz: int -> U32): (r: seq<DisplayOutput>)
    reads conn
    ensures |r| == |conn.outputs|
    ensures forall i :: 0 <= i < |r| ==> r[i] == ToDisplayOutput(conn.outputs[i], hz)
  {
    seq(|conn.outputs|, i requires 0 <= i < |conn.outputs| => ToDisplayOutput(conn.outputs[i], hz))
  }

  /** The modes of some outputs, one output after another. */
  function AllModes(outputs: seq<SwayOutput>): (r: seq<SwayMode>)
    ensures forall m :: m in r <==> exists o :: o in outputs && m in o.modes
  {
    if outputs == [] then []
    else
      var rest := AllModes(outputs[1..]);
      assert forall o :: o in outputs <==> o == outputs[0] || o in outputs[1..];
      outputs[0].modes + rest
  }

  /** Listing the modes of two runs of outputs is listing each in turn. */
  lemma {:induction false} AllModesAppend(a: seq<SwayOutput>, b: seq<SwayOutput>)
    ensures AllModes(a + b) == AllModes(a) + AllModes(b)
  {
    if a != [] {
      assert (a + b)[1..] == a[1..] + b;
      AllModesAppend(a[1..], b);
    } else {
      assert a + b == b;
    }
  }

  /** `list_modes`: the modes of every output that passes the filter, in
      the order of the outputs and of each output's modes. */
  function ListModes(conn: SwayConnection, screen: Option<string>, hz: int -> U32): (r: seq<DisplayMode>)
    reads conn
    ensures r == ToDisplayModes(AllModes(FilterOutputs(conn.outputs, screen)), hz)
    ensures forall d :: d in r <==>
      exists o, m :: o in conn.outputs && Passes(o, screen) && m in o.modes && d == ToDisplayMode(m, hz)
  {
    var modes := AllModes(FilterOutputs(conn.outputs, screen));
    var r := ToDisplayModes(modes, hz);
    assert forall d :: d in r <==> exists i :: 0 <= i < |modes| && d == ToDisplayMode(modes[i], hz);
    assert forall d :: d in r <==> exists m :: m in modes && d == ToDisplayMode(m, hz);
    r
  }

  /** The current mode of the first output in `outputs` that has one. */
  function FirstCurrentMode(outputs: seq<SwayOutput>): (r: Option<SwayMode>)
    ensures r.Some? <==> exists o :: o in outputs && o.currentMode.Some?
    ensures r.Some? ==> exists i :: 0 <= i < |outputs| && outputs[i].currentMode == r
                          && forall j :: 0 <= j < i ==> outputs[j].currentMode.None?
  {
    if outputs == [] then None
    else if outputs[0].currentMode.Some? then
      assert outputs[0] in outputs;
      outputs[0].currentMode
    else
      var r := FirstCurrentMode(outputs[1..]);
      assert forall o :: o in outputs ==> o == outputs[0] || o in outputs[1..];
      assert forall o :: o in outputs[1..] ==> o in outputs;
      if r.Some? then
        var i :| 0 <= i < |outputs[1..]| && outputs[1..][i].currentMode == r
                 && forall j :: 0 <= j < i ==> outputs[1..][j].currentMode.None?;
        assert outputs[i + 1].currentMode == r;
        r
      else r
  }

  /** `current_mode`: the current mode of the first output that passes the
      filter and has one, else `NotFound("Current mode")`. */
  function CurrentMode(conn: SwayConnection, screen: Option<string>, hz: int -> U32): (r: Result<DisplayMode, RegmsgError>)
    reads conn
    ensures r.Err? <==> forall o :: o in conn.outputs && Passes(o, screen) ==> o.currentMode.None?
    ensures r.Err? ==> r.error == NotFound("Current mode")
    ensures r.Ok? ==> r.value == ToDisplayMode(FirstCurrentMode(FilterOutputs(conn.outputs, screen)).value, hz)
  {
    match FirstCurrentMode(FilterOutputs(conn.outputs, screen))
    case None => Err(NotFound("Current mode"))
    case Some(m) => Ok(ToDisplayMode(m, hz))
  }

  /** `current_resolution`: width and height of the current mode. */
  function CurrentResolution(conn: SwayConnection, screen: Option<string>, hz: int -> U32): (r: Result<(U32, U32), RegmsgError>)
    reads conn
    ensures r.Ok? <==> CurrentMode(conn, screen, hz).Ok?
    ensures r.Ok? ==> r.value == (CurrentMode(conn, screen, hz).value.width, CurrentMode(conn, screen, hz).value.height)
    ensures r.Err? ==> r.error == NotFound("Current mode")
  {
    match CurrentMode(conn, screen, hz)
    case Err(e) => Err(e)
    case Ok(m) => Ok((m.width, m.height))
  }

  /** `current_refresh_rate`: the refresh of the current mode. */
  function CurrentRefreshRate(conn: SwayConnection, screen: Option<string>, hz: int -> U32): (r: Result<U32, RegmsgError>)
    reads conn
    ensures r.Ok? <==> CurrentMode(conn, screen, hz).Ok?
    ensures r.Ok? ==> r.value == CurrentMode(conn, screen, hz).value.refreshRate
  {
    match CurrentMode(conn, screen, hz)
    case Err(e) => Err(e)
    case Ok(m) => Ok(m.refreshRate)
  }

  /** `current_rotation`: decided by the first output that passes the
      filter (whether or not it has a transform); 0 when none passes. */
  function CurrentRotation(outputs: seq<SwayOutput>, screen: Option<string>): (angle: U32)
    ensures angle in ROTATIONS
    ensures FilterOutputs(outputs, screen) == [] ==> angle == 0
    ensures FilterOutputs(outputs, screen) != [] ==>
      angle == TransformDegrees(FilterOutputs(outputs, screen)[0].transform)
  {
    var passing := FilterOutputs(outputs, screen);
    if passing == [] then 0 else TransformDegrees(passing[0].transform)
  }

  /** Outputs after the first passing one do not change the rotation. */
  lemma RotationFromFirst(outputs: seq<SwayOutput>, later: seq<SwayOutput>, screen: Option<string>)
    requires FilterOutputs(outputs, screen) != []
    ensures CurrentRotation(outputs + later, screen) == CurrentRotation(outputs, screen)
  {
    FilterAppend(outputs, later, screen);
  }

  // ---------------------------------------------------------------------
  // set_mode
  // ---------------------------------------------------------------------

  /** An output offers the mode when one of its modes has the same width
      and height (the values are cast to `i32`); the refresh is not
      compared. */
  predicate HasMode(o: SwayOutput, mode: ModeParams) {
    exists m :: m in o.modes && m.width == AsI32(mode.width) && m.height == AsI32(mode.height)
  }

  /** The sway command that sets a mode. */
  function ModeCommand(output: string, mode: ModeParams): string {
    "output " + output + " mode " + NatToString(mode.width) + "x" + NatToString(mode.height)
      + "@" + NatToString(mode.refreshRate) + "Hz"
  }

  /** The command `set_mode` sends for an output, if it offers the mode. */
  function ModeStep(mode: ModeParams): SwayOutput -> Option<string> {
    (o: SwayOutput) => if HasMode(o, mode) then Some(ModeCommand(o.name, mode)) else None
  }

  /** The refusal of a named screen that is not there. */
  function ScreenMissing(n: string): RegmsgError {
    NotFound("Screen '" + n + "' not found")
  }

  /** The error of a named screen where nothing was applied. */
  function NothingApplied(mode: ModeParams): RegmsgError {
    Failed("Failed to set mode " + NatToString(mode.width) + "x" + NatToString(mode.height)
      + "@" + NatToString(mode.refreshRate) + "Hz for specified screen")
  }

  /** What `set_mode` returns. */
  function SetModeOutcome(outputs: seq<SwayOutput>, reply: string -> CommandReply, screen: Option<string>,
                          mode: ModeParams, order: seq<string>): Result<Unit, RegmsgError>
    requires screen.None? ==> IsKeyOrder(order, outputs)
  {
    match Targets(outputs, screen, order)
    case None => Err(ScreenMissing(screen.value))
    case Some(targets) =>
      var p := Run(targets, ModeStep(mode), reply);
      if p.failure.Some? then Err(LoopError(p.failure.value))
      else if !p.applied && screen.Some? then Err(NothingApplied(mode))
      else Ok(Unit)
  }

  /** The commands `set_mode` sends. */
  function SetModeSent(outputs: seq<SwayOutput>, reply: string -> CommandReply, screen: Option<string>,
                       mode: ModeParams, order: seq<string>): seq<string>
    requires screen.None? ==> IsKeyOrder(order, outputs)
  {
    match Targets(outputs, screen, order)
    case None => []
    case Some(targets) => Run(targets, ModeStep(mode), reply).sent
  }

  /** `set_mode`: the targets are found, each one that offers the mode gets
      a mode command, the first failing command ends it, and a named screen
      where nothing was applied is an error. */
  method SetMode(conn: SwayConnection, screen: Option<string>, mode: ModeParams, order: seq<string>)
    returns (r: Result<Unit, RegmsgError>)
    requires screen.None? ==> IsKeyOrder(order, conn.outputs)
    modifies conn
    ensures conn.sent == old(conn.sent) + SetModeSent(conn.outputs, conn.reply, screen, mode, order)
    ensures r == SetModeOutcome(conn.outputs, conn.reply, screen, mode, order)
  {
    var targets := Targets(conn.outputs, screen, order);
    if targets.None? {
      return Err(ScreenMissing(screen.value));
    }
    var p := RunAll(conn, targets.value, ModeStep(mode));
    if p.failure.Some? {
      return Err(LoopError(p.failure.value));
    }
    if !p.applied && screen.Some? {
      return Err(NothingApplied(mode));
    }
    r := Ok(Unit);
  }

  /** A named screen that is not there: `NotFound`, nothing sent. */
  lemma MissingScreen(outputs: seq<SwayOutput>, reply: string -> CommandReply, n: string, mode: ModeParams, order: seq<string>)
    requires n !in Names(outputs)
    ensures SetModeOutcome(outputs, reply, Some(n), mode, order) == Err(ScreenMissing(n))
    ensures SetModeSent(outputs, reply, Some(n), mode, order) == []
  {
  }

  /** A named screen that does not offer the width and height: an error and
      nothing sent. */
  lemma NamedScreenWithoutMode(outputs: seq<SwayOutput>, reply: string -> CommandReply, n: string, mode: ModeParams, order: seq<string>)
    requires n in Names(outputs) && !HasMode(PreprocessOutputs(outputs)[n], mode)
    ensures SetModeOutcome(outputs, reply, Some(n), mode, order) == Err(NothingApplied(mode))
    ensures SetModeSent(outputs, reply, Some(n), mode, order) == []
  {
    var t := [PreprocessOutputs(outputs)[n]];
    assert ModeStep(mode)(t[0]).None?;
    RunNothing(t, ModeStep(mode), reply);
  }

  /** With no screen named, no output offering the mode is still a
      success, and nothing is sent. */
  lemma AllScreensWithoutMode(outputs: seq<SwayOutput>, reply: string -> CommandReply, mode: ModeParams, order: seq<string>)
    requires IsKeyOrder(order, outputs)
    requires forall o :: o in outputs ==> !HasMode(o, mode)
    ensures SetModeOutcome(outputs, reply, None, mode, order) == Ok(Unit)
    ensures SetModeSent(outputs, reply, None, mode, order) == []
  {
    var targets := Targets(outputs, None, order).value;
    forall o | o in targets
      ensures ModeStep(mode)(o).None?
    {
      var i :| 0 <= i < |targets| && targets[i] == o;
      assert order[i] in PreprocessOutputs(outputs);
    }
    RunNothing(targets, ModeStep(mode), reply);
  }

  /** Every command `set_mode` sends is the mode command of a target that
      offers the mode. */
  lemma SetModeSendsOnlyOffered(outputs: seq<SwayOutput>, reply: string -> CommandReply, screen: Option<string>, mode: ModeParams, order: seq<string>)
    requires screen.None? ==> IsKeyOrder(order, outputs)
    ensures forall c :: c in SetModeSent(outputs, reply, screen, mode, order) ==>
      exists o :: o in outputs && HasMode(o, mode) && c == ModeCommand(o.name, mode)
  {
    var targets := Targets(outputs, screen, order);
    if targets.Some? {
      RunSendsSteps(targets.value, ModeStep(mode), reply);
      forall o | o in targets.value
        ensures o in outputs
      {
        var i :| 0 <= i < |targets.value| && targets.value[i] == o;
        if screen.None? {
          assert order[i] in PreprocessOutputs(outputs);
        }
      }
    }
  }

  /** A named screen that offers the mode and accepts the command: exactly
      one command is sent, and the result is a success. */
  lemma NamedScreenApplied(outputs: seq<SwayOutput>, reply: string -> CommandReply, n: string, mode: ModeParams, order: seq<string>)
    requires n in Names(outputs) && HasMode(PreprocessOutputs(outputs)[n], mode)
    requires reply(ModeCommand(n, mode)).Applied?
    ensures SetModeOutcome(outputs, reply, Some(n), mode, order) == Ok(Unit)
    ensures SetModeSent(outputs, reply, Some(n), mode, order) == [ModeCommand(n, mode)]
  {
    var t := [PreprocessOutputs(outputs)[n]];
    assert t[0].name == n;
    assert ModeStep(mode)(t[0]) == Some(ModeCommand(n, mode));
    assert t[..0] == [];
    assert Run(t, ModeStep(mode), reply) == Progress([ModeCommand(n, mode)], true, None);
  }

  // ---------------------------------------------------------------------
  // set_rotation
  // ---------------------------------------------------------------------

  function RotationCommand(output: string, rotation: U32): string {
    "output " + output + " transform " + NatToString(rotation)
  }

  function RotationStep(rotation: U32): SwayOutput -> Option<string> {
    (o: SwayOutput) => Some(RotationCommand(o.name, rotation))
  }

  const ROTATION_CHOICES: string := "Rotation must be one of: 0, 90, 180, 270"

  /** `set_rotation`: an angle outside 0, 90, 180, 270 is refused before
      anything is sent; otherwise every output that passes the filter gets
      a transform command, and the first failure ends it. */
  method SetRotation(conn: SwayConnection, screen: Option<string>, rotation: RotationParams)
    returns (r: Result<Unit, RegmsgError>)
    modifies conn
    ensures rotation.rotation !in ROTATIONS ==>
      r == Err(InvalidArguments(ROTATION_CHOICES)) && conn.sent == old(conn.sent)
    ensures rotation.rotation in ROTATIONS ==>
      var p := Run(FilterOutputs(conn.outputs, screen), RotationStep(rotation.rotation), conn.reply);
      conn.sent == old(conn.sent) + p.sent
      && r == if p.failure.Some? then Err(LoopError(p.failure.value)) else Ok(Unit)
  {
    if rotation.rotation !in ROTATIONS {
      return Err(InvalidArguments(ROTATION_CHOICES));
    }
    var p := RunAll(conn, FilterOutputs(conn.outputs, screen), RotationStep(rotation.rotation));
    if p.failure.Some? {
      return Err(LoopError(p.failure.value));
    }
    r := Ok(Unit);
  }

  /** When every command goes through, each output that passes the filter
      gets exactly one transform command, so the rotation loop succeeds. */
  lemma RotationReachesEveryOutput(outputs: seq<SwayOutput>, reply: string -> CommandReply, screen: Option<string>, rotation: U32)
    requires forall o :: o in outputs && Passes(o, screen) ==> reply(RotationCommand(o.name, rotation)).Applied?
    ensures Run(FilterOutputs(outputs, screen), RotationStep(rotation), reply).failure.None?
  {
    RunAllApplied(FilterOutputs(outputs, screen), RotationStep(rotation), reply);
  }

  // ---------------------------------------------------------------------
  // set_max_resolution
  // ---------------------------------------------------------------------

  const DEFAULT_LIMIT: (U32, U32) := (1920, 1080)

  function LimitFormatError(res: string): RegmsgError {
    InvalidArguments("Invalid resolution format: '" + res + "'. Expected 'WxH'")
  }

  function NotPositive(w: nat, h: nat): RegmsgError {
    InvalidArguments("Resolution dimensions must be positive: " + NatToString(w) + "x" + NatToString(h))
  }

  /** The limit `set_max_resolution` works to: 1920x1080 when none is
      given; otherwise exactly two 'x'-separated `u32` values, neither
      zero. */
  function ParseLimit(limit: Option<string>): (r: Result<(U32, U32), RegmsgError>)
    ensures limit.None? ==> r == Ok(DEFAULT_LIMIT)
    ensures limit.Some? && |Split(limit.value, {'x'})| != 2 ==> r == Err(LimitFormatError(limit.value))
    ensures r.Ok? ==> r.value.0 > 0 && r.value.1 > 0
    ensures limit.Some? && r.Ok? ==>
      var parts := Split(limit.value, {'x'});
      |parts| == 2 && ParseU32(parts[0]) == Ok(r.value.0) && ParseU32(parts[1]) == Ok(r.value.1)
    ensures limit.Some? && |Split(limit.value, {'x'})| == 2 ==>
      var w, h := ParseU32(Split(limit.value, {'x'})[0]), ParseU32(Split(limit.value, {'x'})[1]);
      && (w.Err? ==> r == Err(SizeError("width", w.error)))
      && (w.Ok? && h.Err? ==> r == Err(SizeError("height", h.error)))
      && (w.Ok? && h.Ok? && (w.value == 0 || h.value == 0) ==> r == Err(NotPositive(w.value, h.value)))
      && (w.Ok? && h.Ok? && !(w.value == 0 || h.value == 0) ==> r == Ok((w.value, h.value)))
  {
    match limit
    case None => Ok(DEFAULT_LIMIT)
    case Some(res) =>
      var parts := Split(res, {'x'});
      if |parts| != 2 then Err(LimitFormatError(res))
      else ParseSize(parts[0], parts[1])
  }

  /** The error for a half of a limit that is not an integer. */
  function SizeError(what: string, k: IntErrorKind): RegmsgError {
    ParseError("Failed to parse " + what + ": " + IntErrorMessage(k))
  }

  /** The two halves of a limit: the width, then the height, each parsed
      and both required to be positive. */
  function ParseSize(width: string, height: string): (r: Result<(U32, U32), RegmsgError>)
    ensures r.Ok? ==> r.value.0 > 0 && r.value.1 > 0
    ensures r.Ok? ==> ParseU32(width) == Ok(r.value.0) && ParseU32(height) == Ok(r.value.1)
  {
    match ParseU32(width)
    case Err(k) => Err(SizeError("width", k))
    case Ok(w) =>
      match ParseU32(height)
      case Err(k) => Err(SizeError("height", k))
      case Ok(h) =>
        if w == 0 || h == 0 then Err(NotPositive(w, h)) else Ok((w, h))
  }

  /** A limit written `{w}x{h}` with both values positive is read back. */
  lemma ParseLimitText(w: nat, h: nat)
    requires 0 < w <= U32_MAX && 0 < h <= U32_MAX
    ensures ParseLimit(Some(NatToString(w) + "x" + NatToString(h))) == Ok((w, h))
  {
    var sw, sh := NatToString(w), NatToString(h);
    assert Avoids(sw, {'x'}) && Avoids(sh, {'x'});
    ParseNatToString(w, false, 0, U32_MAX);
    ParseNatToString(h, false, 0, U32_MAX);
    LimitOfPieces(sw, sh, w, h);
  }

  /** Two 'x'-free pieces that read as positive `u32` values make that
      limit. */
  lemma LimitOfPieces(a: string, b: string, w: nat, h: nat)
    requires Avoids(a, {'x'}) && Avoids(b, {'x'})
    requires ParseU32(a) == Ok(w) && ParseU32(b) == Ok(h) && w > 0 && h > 0
    ensures ParseLimit(Some(a + "x" + b)) == Ok((w, h))
  {
    assert a + "x" + b == a + ['x'] + b;
    SplitAvoiding(b, {'x'});
    SplitConcat(a, 'x', b, {'x'});
  }

  /** A mode within the limit (the values cast to `u32`). */
  predicate Fits(m: SwayMode, limit: (U32, U32)) {
    AsU32(m.width) <= limit.0 && AsU32(m.height) <= limit.1
  }

  /** The key `max_by_key` compares: the `u32` product of width and height,
      wrapping as release builds do. */
  function Area(m: SwayMode): U32 {
    (AsU32(m.width) * AsU32(m.height)) % (U32_MAX + 1)
  }

  /** `max_by_key` over the fitting modes: the index of a fitting mode of
      largest area, the last such one on ties. */
  function BestMode(modes: seq<SwayMode>, limit: (U32, U32)): (r: Option<nat>)
    ensures r.None? <==> forall i :: 0 <= i < |modes| ==> !Fits(modes[i], limit)
    ensures r.Some? ==> r.value < |modes| && Fits(modes[r.value], limit)
    ensures r.Some? ==> forall i :: 0 <= i < |modes| && Fits(modes[i], limit) ==> Area(modes[i]) <= Area(modes[r.value])
    ensures r.Some? ==> forall i :: r.value < i < |modes| && Fits(modes[i], limit) ==> Area(modes[i]) < Area(modes[r.value])
    decreases |modes|
  {
    if modes == [] then None
    else
      var k := |modes| - 1;
      var b := BestMode(modes[..k], limit);
      assert forall i :: 0 <= i < k ==> modes[..k][i] == modes[i];
      if Fits(modes[k], limit) && (b.None? || Area(modes[k]) >= Area(modes[b.value])) then Some(k)
      else b
  }

  /** The command that sets the best mode; the refresh goes through
      `format_refresh`. */
  function MaxCommand(output: string, m: SwayMode): string {
    "output " + output + " mode " + IntToString(m.width) + "x" + IntToString(m.height)
      + "@" + FormatRefresh(m.refresh) + "Hz"
  }

  /** The command `set_max_resolution` sends, if any: none without a
      target, without a current mode, when the current mode already fits,
      or when no mode fits. */
  function MaxResolutionCommand(outputs: seq<SwayOutput>, screen: Option<string>, limit: (U32, U32)): Option<string> {
    match MaxTarget(outputs, screen)
    case None => None
    case Some(o) =>
      if o.currentMode.None? || Fits(o.currentMode.value, limit) then None
      else
        match BestMode(o.modes, limit)
        case None => None
        case Some(i) => Some(MaxCommand(o.name, o.modes[i]))
  }

  /** `set_max_resolution`: the limit is checked first; then at most one
      command is sent, and its failure is the only other error. */
  method SetMaxResolution(conn: SwayConnection, screen: Option<string>, limit: Option<string>)
    returns (r: Result<Unit, RegmsgError>)
    modifies conn
    ensures ParseLimit(limit).Err? ==> r == Err(ParseLimit(limit).error) && conn.sent == old(conn.sent)
    ensures ParseLimit(limit).Ok? ==>
      var c := MaxResolutionCommand(conn.outputs, screen, ParseLimit(limit).value);
      conn.sent == old(conn.sent) + (if c.Some? then [c.value] else [])
      && r == if c.Some? && !conn.reply(c.value).Applied? then Err(Failed(conn.reply(c.value).error)) else Ok(Unit)
  {
    var parsed := ParseLimit(limit);
    if parsed.Err? {
      return Err(parsed.error);
    }
    var command := MaxResolutionCommand(conn.outputs, screen, parsed.value);
    if command.None? {
      return Ok(Unit);
    }
    var answer := conn.RunCommand(command.value);
    if !answer.Applied? {
      return Err(Failed(answer.error));
    }
    r := Ok(Unit);
  }

  /** A target whose current mode already fits the limit is left alone. */
  lemma FittingModeKept(outputs: seq<SwayOutput>, screen: Option<string>, limit: (U32, U32))
    requires MaxTarget(outputs, screen).Some?
    requires var o := MaxTarget(outputs, screen).value; o.currentMode.Some? && Fits(o.currentMode.value, limit)
    ensures MaxResolutionCommand(outputs, screen, limit).None?
  {
  }

  /** When two fitting modes have the same largest area, the later one is
      chosen. */
  lemma TieGoesToLast(a: SwayMode, b: SwayMode, limit: (U32, U32))
    requires Fits(a, limit) && Fits(b, limit) && Area(a) == Area(b)
    ensures BestMode([a, b], limit) == Some(1)
  {
    assert [a, b][..1] == [a];
    assert [a][..0] == [];
  }

  // ---------------------------------------------------------------------
  // map_touchscreen
  // ---------------------------------------------------------------------

  /** `map_touchscreen`: the first touch device is mapped to the first
      focused output; a missing device or output is `NotFound`, checked in
      that order, and nothing is sent then. */
  method MapTouchscreen(conn: SwayConnection) returns (r: Result<Unit, RegmsgError>)
    modifies conn
    ensures FirstTouch(conn.inputs).None? ==>
      r == Err(NotFound("No touchscreen device found")) && conn.sent == old(conn.sent)
    ensures FirstTouch(conn.inputs).Some? && FirstFocused(conn.outputs).None? ==>
      r == Err(NotFound("No focused output found")) && conn.sent == old(conn.sent)
    ensures FirstTouch(conn.inputs).Some? && FirstFocused(conn.outputs).Some? ==>
      var c := TouchCommand(FirstTouch(conn.inputs).value, FirstFocused(conn.outputs).value.name);
      conn.sent == old(conn.sent) + [c]
      && r == if conn.reply(c).Applied? then Ok(Unit) else Err(Failed(conn.reply(c).error))
  {
    var touch := FirstTouch(conn.inputs);
    if touch.None? {
      return Err(NotFound("No touchscreen device found"));
    }
    var focused := FirstFocused(conn.outputs);
    if focused.None? {
      return Err(NotFound("No focused output found"));
    }
    var answer := conn.RunCommand(TouchCommand(touch.value, focused.value.name));
    if !answer.Applied? {
      return Err(Failed(answer.error));
    }
    r := Ok(Unit);
  }
}
