/** The daemon's screen service (src/bin/daemon/screen/mod.rs): mode-string
    parsing, the checks `set_rotation` makes before it reaches the backend,
    the "max-" branch of `set_mode`, and the text each query renders.  The
    backend is the one `default_backend` would pick, taken as a parameter. */
module DaemonScreen {
  import opened Wrappers
  import opened Text
  import opened UtilsError
  import opened Backend

  /** `ModeInfo`: three `i32` values. */
  datatype ModeInfo = ModeInfo(width: I32, height: I32, vrefresh: I32)

  const MODE_SEPARATORS: set<char> := {'x', '@'}
  const DEFAULT_REFRESH: int := 60
  const DEFAULT_MAX_RESOLUTION: string := "1920x1080"
  const DEFAULT_SCREENSHOT_DIR: string := "/userdata/screenshots"
  const VALID_ROTATIONS: set<int> := {0, 90, 180, 270}

  /** `parse_mode`: the text is cut at every 'x' and every '@'; two pieces
      are width and height with the refresh defaulting to 60, three pieces
      add the refresh; any other count is a format error.  The pieces are
      read as `i32`, width first. */
  function ParseMode(mode: string): (r: Result<ModeInfo, RegmsgError>)
    ensures var n := |Split(mode, MODE_SEPARATORS)|;
      r == Err(InvalidArguments("Invalid mode format. Use 'WxH@R' or 'WxH'")) <==> n < 2 || n > 3
    ensures var p := Split(mode, MODE_SEPARATORS);
      r.Ok? <==> 2 <= |p| <= 3 && ParseI32(p[0]).Ok? && ParseI32(p[1]).Ok? && (|p| == 3 ==> ParseI32(p[2]).Ok?)
    ensures var p := Split(mode, MODE_SEPARATORS);
      r.Ok? ==> r.value.width == ParseI32(p[0]).value && r.value.height == ParseI32(p[1]).value
                && r.value.vrefresh == (if |p| == 3 then ParseI32(p[2]).value else DEFAULT_REFRESH)
    ensures var p := Split(mode, MODE_SEPARATORS);
      r == Err(ParseError("Invalid width")) <==> 2 <= |p| <= 3 && ParseI32(p[0]).Err?
    ensures var p := Split(mode, MODE_SEPARATORS);
      r == Err(ParseError("Invalid height")) <==> 2 <= |p| <= 3 && ParseI32(p[0]).Ok? && ParseI32(p[1]).Err?
    ensures var p := Split(mode, MODE_SEPARATORS);
      r == Err(ParseError("Invalid refresh rate")) <==>
        |p| == 3 && ParseI32(p[0]).Ok? && ParseI32(p[1]).Ok? && ParseI32(p[2]).Err?
    ensures r.Err? ==> r.error.InvalidArguments? || r.error.ParseError?
  {
    var parts := Split(mode, MODE_SEPARATORS);
    if |parts| < 2 || |parts| > 3 then
      Err(InvalidArguments("Invalid mode format. Use 'WxH@R' or 'WxH'"))
    else
      match ParseI32(parts[0])
      case Err(_) => Err(ParseError("Invalid width"))
      case Ok(width) =>
        match ParseI32(parts[1])
        case Err(_) => Err(ParseError("Invalid height"))
        case Ok(height) =>
          if |parts| == 3 then
            match ParseI32(parts[2])
            case Err(_) => Err(ParseError("Invalid refresh rate"))
            case Ok(vrefresh) => Ok(ModeInfo(width, height, vrefresh))
          else
            Ok(ModeInfo(width, height, DEFAULT_REFRESH))
  }

  /** The `{}x{}@{}` rendering of three unsigned values. */
  function ModeText(w: nat, h: nat, r: nat): string {
    NatToString(w) + "x" + NatToString(h) + "@" + NatToString(r)
  }

  /** The `{}x{}` rendering. */
  function ResolutionText(w: nat, h: nat): string {
    NatToString(w) + "x" + NatToString(h)
  }

  lemma DigitsAvoidSeparators(n: nat)
    ensures Avoids(NatToString(n), MODE_SEPARATORS)
  {
  }

  /** Reading back a rendered mode with refresh gives the three values. */
  lemma ParseModeText(w: nat, h: nat, r: nat)
    requires w <= I32_MAX && h <= I32_MAX && r <= I32_MAX
    ensures ParseMode(ModeText(w, h, r)) == Ok(ModeInfo(w, h, r))
  {
    var sw, sh, sr := NatToString(w), NatToString(h), NatToString(r);
    DigitsAvoidSeparators(w);
    DigitsAvoidSeparators(h);
    DigitsAvoidSeparators(r);
    assert ModeText(w, h, r) == sw + ['x'] + (sh + ['@'] + sr);
    ThreePieces(sw, sh, sr);
    ParseNatToString(w, true, I32_MIN, I32_MAX);
    ParseNatToString(h, true, I32_MIN, I32_MAX);
    ParseNatToString(r, true, I32_MIN, I32_MAX);
  }

  /** Reading back a rendered resolution gives its values and refresh 60. */
  lemma ParseResolutionText(w: nat, h: nat)
    requires w <= I32_MAX && h <= I32_MAX
    ensures ParseMode(ResolutionText(w, h)) == Ok(ModeInfo(w, h, DEFAULT_REFRESH))
  {
    var sw, sh := NatToString(w), NatToString(h);
    DigitsAvoidSeparators(w);
    DigitsAvoidSeparators(h);
    assert ResolutionText(w, h) == sw + ['x'] + sh;
    TwoPieces(sw, sh);
    ParseNatToString(w, true, I32_MIN, I32_MAX);
    ParseNatToString(h, true, I32_MIN, I32_MAX);
  }

  /** Zero values are accepted: "0x0@0" is the mode (0, 0, 0). */
  lemma ZeroMode()
    ensures ParseMode("0x0@0") == Ok(ModeInfo(0, 0, 0))
  {
    ParseModeText(0, 0, 0);
    assert ModeText(0, 0, 0) == "0x0@0";
  }

  /** A mode with an extra separator, such as "1920x1080@60@1", has four
      pieces and is a format error. */
  lemma ExtraPieceRefused(w: nat, h: nat, r: nat, s: nat)
    ensures ParseMode(ModeText(w, h, r) + "@" + NatToString(s)) ==
      Err(InvalidArguments("Invalid mode format. Use 'WxH@R' or 'WxH'"))
  {
    var sw, sh, sr, ss := NatToString(w), NatToString(h), NatToString(r), NatToString(s);
    DigitsAvoidSeparators(w);
    DigitsAvoidSeparators(h);
    DigitsAvoidSeparators(r);
    DigitsAvoidSeparators(s);
    assert ModeText(w, h, r) + "@" + ss == sw + ['x'] + (sh + ['@'] + (sr + ['@'] + ss));
    FourPieces(sw, sh, sr, ss);
  }

  /** Two separator-free pieces joined by 'x'. */
  lemma TwoPieces(a: string, b: string)
    requires Avoids(a, MODE_SEPARATORS) && Avoids(b, MODE_SEPARATORS)
    ensures Split(a + ['x'] + b, MODE_SEPARATORS) == [a, b]
  {
    SplitAvoiding(b, MODE_SEPARATORS);
    SplitConcat(a, 'x', b, MODE_SEPARATORS);
  }

  /** Three separator-free pieces joined by 'x' and '@'. */
  lemma ThreePieces(a: string, b: string, c: string)
    requires Avoids(a, MODE_SEPARATORS) && Avoids(b, MODE_SEPARATORS) && Avoids(c, MODE_SEPARATORS)
    ensures Split(a + ['x'] + (b + ['@'] + c), MODE_SEPARATORS) == [a, b, c]
  {
    SplitAvoiding(c, MODE_SEPARATORS);
    SplitConcat(b, '@', c, MODE_SEPARATORS);
    SplitConcat(a, 'x', b + ['@'] + c, MODE_SEPARATORS);
  }

  /** Four separator-free pieces joined by 'x', '@' and '@'. */
  lemma FourPieces(a: string, b: string, c: string, d: string)
    requires Avoids(a, MODE_SEPARATORS) && Avoids(b, MODE_SEPARATORS)
    requires Avoids(c, MODE_SEPARATORS) && Avoids(d, MODE_SEPARATORS)
    ensures Split(a + ['x'] + (b + ['@'] + (c + ['@'] + d)), MODE_SEPARATORS) == [a, b, c, d]
  {
    SplitAvoiding(d, MODE_SEPARATORS);
    SplitConcat(c, '@', d, MODE_SEPARATORS);
    SplitConcat(b, '@', c + ['@'] + d, MODE_SEPARATORS);
    SplitConcat(a, 'x', b + ['@'] + (c + ['@'] + d), MODE_SEPARATORS);
  }

  /** A bare number is one piece and is a format error. */
  lemma BareNumberRefused(w: nat)
    ensures ParseMode(NatToString(w)) == Err(InvalidArguments("Invalid mode format. Use 'WxH@R' or 'WxH'"))
  {
    DigitsAvoidSeparators(w);
    SplitAvoiding(NatToString(w), MODE_SEPARATORS);
  }

  /** A width that is not an integer is reported before the height is
      looked at. */
  lemma WidthCheckedFirst(a: string, b: string)
    requires Avoids(a, MODE_SEPARATORS) && Avoids(b, MODE_SEPARATORS)
    requires ParseI32(a).Err?
    ensures ParseMode(a + "x" + b) == Err(ParseError("Invalid width"))
  {
    SplitConcat(a, 'x', b, MODE_SEPARATORS);
    SplitAvoiding(b, MODE_SEPARATORS);
  }

  /** The backend request `set_mode` and `set_output` build from a parsed
      mode. */
  function Params(m: ModeInfo): ModeParams
  {
    ModeParams(AsU32(m.width), AsU32(m.height), AsU32(m.vrefresh))
  }

  /** A negative width is not refused: it reaches the backend as a large
      unsigned value. */
  lemma NegativeWidthWraps(h: nat)
    requires h <= I32_MAX
    ensures ParseMode("-1x" + NatToString(h)).Ok?
    ensures Params(ParseMode("-1x" + NatToString(h)).value).width == U32_MAX
  {
    var sh := NatToString(h);
    DigitsAvoidSeparators(h);
    assert "-1x" + sh == "-1" + ['x'] + sh;
    SplitConcat("-1", 'x', sh, MODE_SEPARATORS);
    SplitAvoiding(sh, MODE_SEPARATORS);
    ParseNatToString(h, true, I32_MIN, I32_MAX);
    assert ParseI32("-1") == Ok(-1);
  }

  /** `set_mode`: a "max-" prefix sends the rest, with every leading "max-"
      removed, to the maximum-resolution routine without parsing it;
      otherwise the mode is parsed and its numbers go to the backend. */
  function SetMode(b: DisplayBackend, screen: Option<string>, mode: string): (r: Result<Unit, RegmsgError>)
    ensures StartsWith(mode, "max-") ==> r == b.setMaxResolution(screen, Some(TrimStartMatches(mode, "max-")))
    ensures !StartsWith(mode, "max-") && ParseMode(mode).Err? ==> r == Err(ParseMode(mode).error)
    ensures !StartsWith(mode, "max-") && ParseMode(mode).Ok? ==> r == b.setMode(screen, Params(ParseMode(mode).value))
  {
    if StartsWith(mode, "max-") then
      b.setMaxResolution(screen, Some(TrimStartMatches(mode, "max-")))
    else
      match ParseMode(mode)
      case Err(e) => Err(e)
      case Ok(info) => b.setMode(screen, Params(info))
  }

  /** A mode that fails to parse is refused the same way whatever the
      backend: the backend is not called. */
  lemma SetModeParseFirst(b1: DisplayBackend, b2: DisplayBackend, screen: Option<string>, mode: string)
    requires !StartsWith(mode, "max-") && ParseMode(mode).Err?
    ensures SetMode(b1, screen, mode) == SetMode(b2, screen, mode)
  {
  }

  /** The current mode the daemon reports can be set again as it is. */
  lemma SetModeOfCurrent(b: DisplayBackend, screen: Option<string>, m: DisplayMode)
    requires m.width <= I32_MAX && m.height <= I32_MAX && m.refreshRate <= I32_MAX
    ensures SetMode(b, screen, ModeText(m.width, m.height, m.refreshRate))
            == b.setMode(screen, ModeParams(m.width, m.height, m.refreshRate))
  {
    ParseModeText(m.width, m.height, m.refreshRate);
    assert ModeText(m.width, m.height, m.refreshRate)[0] != 'm';
  }

  /** `set_output`: the mode is parsed and applied with no screen named. */
  function SetOutput(b: DisplayBackend, output: string): (r: Result<Unit, RegmsgError>)
    ensures ParseMode(output).Err? ==> r == Err(ParseMode(output).error)
    ensures ParseMode(output).Ok? ==> r == b.setMode(None, Params(ParseMode(output).value))
  {
    match ParseMode(output)
    case Err(e) => Err(e)
    case Ok(info) => b.setMode(None, Params(info))
  }

  /** `set_output` is `set_mode` on every screen for a mode without the
      "max-" prefix. */
  lemma SetOutputIsSetModeOnAll(b: DisplayBackend, output: string)
    requires !StartsWith(output, "max-")
    ensures SetOutput(b, output) == SetMode(b, None, output)
  {
  }

  /** The refusal of a rotation that is not a number. */
  function NotANumber(rotation: string): string {
    "Invalid rotation: '" + rotation + "'. Must be a number"
  }

  const ROTATION_CHOICES: string := "Rotation must be one of: 0, 90, 180, 270"

  /** The checks `set_rotation` makes: the text must be a `u32`, and the
      value one of 0, 90, 180 and 270. */
  function RotationValue(rotation: string): (r: Result<U32, RegmsgError>)
    ensures r.Ok? <==> ParseU32(rotation).Ok? && ParseU32(rotation).value in VALID_ROTATIONS
    ensures r.Ok? ==> r.value == ParseU32(rotation).value
    ensures ParseU32(rotation).Err? ==>
      r == Err(InvalidArguments(NotANumber(rotation)))
    ensures ParseU32(rotation).Ok? && ParseU32(rotation).value !in VALID_ROTATIONS ==>
      r == Err(InvalidArguments(ROTATION_CHOICES))
  {
    match ParseU32(rotation)
    case Err(_) => Err(InvalidArguments(NotANumber(rotation)))
    case Ok(v) =>
      if v !in VALID_ROTATIONS then Err(InvalidArguments(ROTATION_CHOICES))
      else Ok(v)
  }

  /** `set_rotation`: the checked value is handed to the backend. */
  function SetRotation(b: DisplayBackend, screen: Option<string>, rotation: string): (r: Result<Unit, RegmsgError>)
    ensures RotationValue(rotation).Err? ==> r == Err(RotationValue(rotation).error)
    ensures RotationValue(rotation).Ok? ==> r == b.setRotation(screen, RotationParams(RotationValue(rotation).value))
  {
    match RotationValue(rotation)
    case Err(e) => Err(e)
    case Ok(v) => b.setRotation(screen, RotationParams(v))
  }

  /** The four accepted texts are the decimal renderings of the four
      angles, each of which is handed to the backend unchanged. */
  lemma RotationsAccepted(b: DisplayBackend, screen: Option<string>, angle: nat)
    requires angle in VALID_ROTATIONS
    ensures SetRotation(b, screen, NatToString(angle)) == b.setRotation(screen, RotationParams(angle))
  {
    var text := NatToString(angle);
    assert angle <= 270;
    ParseNatToString(angle, false, 0, U32_MAX);
    assert ParseInteger(text, false, 0, U32_MAX) == Ok(angle);
    assert ParseU32(text) == Ok(angle);
    assert RotationValue(text) == Ok(angle);
  }

  /** A rejected rotation never reaches the backend: the refusal is the
      same whatever the backend. */
  lemma RejectedRotationSkipsBackend(b1: DisplayBackend, b2: DisplayBackend, screen: Option<string>, rotation: string)
    requires RotationValue(rotation).Err?
    ensures SetRotation(b1, screen, rotation) == SetRotation(b2, screen, rotation)
    ensures SetRotation(b1, screen, rotation).error.InvalidArguments?
  {
  }

  /** 45 degrees is a number but not an accepted angle. */
  lemma Rotation45Refused(b: DisplayBackend, screen: Option<string>)
    ensures SetRotation(b, screen, "45") == Err(InvalidArguments(ROTATION_CHOICES))
  {
    ParseNatToString(45, false, 0, U32_MAX);
    assert NatToString(45) == "45";
  }

  /** One line of `list_modes`: `{w}x{h}@{r}:{name} {w}x{h}@{r}Hz`. */
  function ModeLine(m: DisplayMode): string {
    ModeText(m.width, m.height, m.refreshRate) + ":" + m.name + " "
      + ModeText(m.width, m.height, m.refreshRate) + "Hz"
  }

  function ModeLines(modes: seq<DisplayMode>): (lines: seq<string>)
    ensures |lines| == |modes|
    ensures forall i :: 0 <= i < |modes| ==> lines[i] == ModeLine(modes[i])
  {
    seq(|modes|, i requires 0 <= i < |modes| => ModeLine(modes[i]))
  }

  function OutputNames(outputs: seq<DisplayOutput>): (names: seq<string>)
    ensures |names| == |outputs|
    ensures forall i :: 0 <= i < |outputs| ==> names[i] == outputs[i].name
  {
    seq(|outputs|, i requires 0 <= i < |outputs| => outputs[i].name)
  }

  /** `list_modes`: the backend's modes, one line each. */
  function ListModes(b: DisplayBackend, screen: Option<string>): (r: Result<string, RegmsgError>)
    ensures r.Err? <==> b.listModes(screen).Err?
    ensures r.Err? ==> r.error == b.listModes(screen).error
    ensures r.Ok? ==> (r.value == [] <==> b.listModes(screen).value == [])
  {
    match b.listModes(screen)
    case Err(e) => Err(e)
    case Ok(modes) =>
      var lines := ModeLines(modes);
      if modes == [] then Ok(Join(lines, "\n"))
      else
        JoinStartsWith(lines, "\n");
        assert |lines[0]| > 0;
        Ok(Join(lines, "\n"))
  }

  /** `list_outputs`: the backend's output names, one per line. */
  function ListOutputs(b: DisplayBackend): (r: Result<string, RegmsgError>)
    ensures r.Err? <==> b.listOutputs.Err?
    ensures r.Err? ==> r.error == b.listOutputs.error
    ensures r.Ok? && b.listOutputs.value == [] ==> r.value == []
    ensures r.Ok? && b.listOutputs.value != [] ==> b.listOutputs.value[0].name <= r.value
  {
    match b.listOutputs
    case Err(e) => Err(e)
    case Ok(outputs) =>
      if outputs != [] then JoinStartsWith(OutputNames(outputs), "\n"); Ok(Join(OutputNames(outputs), "\n"))
      else Ok(Join(OutputNames(outputs), "\n"))
  }

  lemma ModeLineAvoids(m: DisplayMode)
    requires Avoids(m.name, {'\n'})
    ensures Avoids(ModeLine(m), {'\n'})
  {
    var t := ModeText(m.width, m.height, m.refreshRate);
    assert AllDigits(NatToString(m.width)) && AllDigits(NatToString(m.height)) && AllDigits(NatToString(m.refreshRate));
    assert Avoids(t, {'\n'});
  }

  /** Cutting the `list_modes` reply at its line breaks gives one line per
      mode, in the backend's order, provided no mode name holds a line
      break. */
  lemma ListModesLines(b: DisplayBackend, screen: Option<string>)
    requires b.listModes(screen).Ok? && b.listModes(screen).value != []
    requires forall m :: m in b.listModes(screen).value ==> Avoids(m.name, {'\n'})
    ensures ListModes(b, screen).Ok?
    ensures Split(ListModes(b, screen).value, {'\n'}) == ModeLines(b.listModes(screen).value)
  {
    var modes := b.listModes(screen).value;
    var lines := ModeLines(modes);
    forall p | p in lines
      ensures Avoids(p, {'\n'})
    {
      var i :| 0 <= i < |lines| && lines[i] == p;
      assert modes[i] in modes;
      ModeLineAvoids(modes[i]);
    }
    SplitJoin(lines, '\n');
  }

  /** Cutting the `list_outputs` reply at its line breaks gives the output
      names, provided none holds a line break. */
  lemma ListOutputsLines(b: DisplayBackend)
    requires b.listOutputs.Ok? && b.listOutputs.value != []
    requires forall o :: o in b.listOutputs.value ==> Avoids(o.name, {'\n'})
    ensures ListOutputs(b).Ok?
    ensures Split(ListOutputs(b).value, {'\n'}) == OutputNames(b.listOutputs.value)
  {
    var names := OutputNames(b.listOutputs.value);
    forall p | p in names
      ensures Avoids(p, {'\n'})
    {
      var i :| 0 <= i < |names| && names[i] == p;
      assert b.listOutputs.value[i] in b.listOutputs.value;
    }
    SplitJoin(names, '\n');
  }

  /** An output `current_output` can name: connected and with a mode. */
  predicate IsActive(o: DisplayOutput) {
    o.isConnected && o.currentMode.Some?
  }

  /** The first active output. */
  function FirstActive(outputs: seq<DisplayOutput>): (r: Option<nat>)
    ensures r.Some? ==> r.value < |outputs| && IsActive(outputs[r.value])
    ensures r.Some? ==> forall j :: 0 <= j < r.value ==> !IsActive(outputs[j])
    ensures r.None? ==> forall j :: 0 <= j < |outputs| ==> !IsActive(outputs[j])
  {
    if outputs == [] then None
    else if IsActive(outputs[0]) then Some(0)
    else
      var r := FirstActive(outputs[1..]);
      if r.None? then None else Some(r.value + 1)
  }

  /** `current_output`: the name of the first active output, or
      "No active output". */
  function CurrentOutput(b: DisplayBackend): (r: Result<string, RegmsgError>)
    ensures b.listOutputs.Err? ==> r == Err(b.listOutputs.error)
    ensures b.listOutputs.Ok? ==> r.Ok?
    ensures b.listOutputs.Ok? && (forall o :: o in b.listOutputs.value ==> !IsActive(o))
            ==> r == Ok("No active output")
    ensures b.listOutputs.Ok? && (exists o :: o in b.listOutputs.value && IsActive(o)) ==>
      var outputs := b.listOutputs.value;
      exists i :: 0 <= i < |outputs| && IsActive(outputs[i])
                  && (forall j :: 0 <= j < i ==> !IsActive(outputs[j]))
                  && r == Ok(outputs[i].name)
  {
    match b.listOutputs
    case Err(e) => Err(e)
    case Ok(outputs) =>
      match FirstActive(outputs)
      case None => Ok("No active output")
      case Some(i) => Ok(outputs[i].name)
  }

  /** `current_mode`: `{w}x{h}@{r}` of the backend's current mode, which
      reads back through `parse_mode` as that mode when its values fit
      `i32`. */
  function CurrentMode(b: DisplayBackend, screen: Option<string>): (r: Result<string, RegmsgError>)
    ensures r.Err? <==> b.currentMode(screen).Err?
    ensures r.Err? ==> r.error == b.currentMode(screen).error
    ensures r.Ok? ==> var m := b.currentMode(screen).value;
      m.width <= I32_MAX && m.height <= I32_MAX && m.refreshRate <= I32_MAX ==>
        ParseMode(r.value) == Ok(ModeInfo(m.width, m.height, m.refreshRate))
  {
    match b.currentMode(screen)
    case Err(e) => Err(e)
    case Ok(m) =>
      if m.width <= I32_MAX && m.height <= I32_MAX && m.refreshRate <= I32_MAX then
        ParseModeText(m.width, m.height, m.refreshRate);
        Ok(ModeText(m.width, m.height, m.refreshRate))
      else Ok(ModeText(m.width, m.height, m.refreshRate))
  }

  /** `current_resolution`: `{w}x{h}`, which reads back through
      `parse_mode` as a mode at the default refresh when its values fit
      `i32`. */
  function CurrentResolution(b: DisplayBackend, screen: Option<string>): (r: Result<string, RegmsgError>)
    ensures r.Err? <==> b.currentResolution(screen).Err?
    ensures r.Err? ==> r.error == b.currentResolution(screen).error
    ensures r.Ok? ==> var wh := b.currentResolution(screen).value;
      wh.0 <= I32_MAX && wh.1 <= I32_MAX ==> ParseMode(r.value) == Ok(ModeInfo(wh.0, wh.1, DEFAULT_REFRESH))
  {
    match b.currentResolution(screen)
    case Err(e) => Err(e)
    case Ok(wh) =>
      if wh.0 <= I32_MAX && wh.1 <= I32_MAX then
        ParseResolutionText(wh.0, wh.1);
        Ok(ResolutionText(wh.0, wh.1))
      else Ok(ResolutionText(wh.0, wh.1))
  }

  /** `current_refresh`: `{r}Hz`. */
  function CurrentRefresh(b: DisplayBackend, screen: Option<string>): (r: Result<string, RegmsgError>)
    ensures r.Ok? ==> b.currentRefreshRate(screen).Ok? && |r.value| > 2 && r.value[|r.value| - 2..] == "Hz"
                      && AllDigits(r.value[..|r.value| - 2])
                      && DigitsValue(r.value[..|r.value| - 2], 0) == b.currentRefreshRate(screen).value
    ensures r.Err? <==> b.currentRefreshRate(screen).Err?
  {
    match b.currentRefreshRate(screen)
    case Err(e) => Err(e)
    case Ok(rate) =>
      NatToStringValue(rate);
      var t := NatToString(rate) + "Hz";
      assert t[..|t| - 2] == NatToString(rate);
      Ok(t)
  }

  /** `current_rotation`: the angle in decimal. */
  function CurrentRotation(b: DisplayBackend, screen: Option<string>): (r: Result<string, RegmsgError>)
    ensures r.Ok? ==> b.currentRotation(screen).Ok? && AllDigits(r.value) && DigitsValue(r.value, 0) == b.currentRotation(screen).value
    ensures r.Err? <==> b.currentRotation(screen).Err?
  {
    match b.currentRotation(screen)
    case Err(e) => Err(e)
    case Ok(rot) =>
      NatToStringValue(rot);
      Ok(NatToString(rot))
  }

  /** `min_to_max_resolution`: the maximum-resolution routine with the
      fixed limit 1920x1080, which is what `set_mode` does for
      "max-1920x1080". */
  function MinToMaxResolution(b: DisplayBackend, screen: Option<string>): (r: Result<Unit, RegmsgError>)
    ensures r == SetMode(b, screen, "max-" + DEFAULT_MAX_RESOLUTION)
  {
    var mode := "max-" + DEFAULT_MAX_RESOLUTION;
    assert StartsWith(mode, "max-");
    assert mode[4..] == DEFAULT_MAX_RESOLUTION;
    assert !StartsWith(DEFAULT_MAX_RESOLUTION, "max-") by {
      assert DEFAULT_MAX_RESOLUTION[0] == '1';
    }
    assert TrimStartMatches(mode, "max-") == DEFAULT_MAX_RESOLUTION;
    b.setMaxResolution(screen, Some(DEFAULT_MAX_RESOLUTION))
  }

  /** `get_screenshot`: a screenshot into the default directory; the file
      name is dropped. */
  function GetScreenshot(b: DisplayBackend): (r: Result<Unit, RegmsgError>)
    ensures r.Ok? <==> b.takeScreenshot(DEFAULT_SCREENSHOT_DIR).Ok?
    ensures r.Err? ==> r.error == b.takeScreenshot(DEFAULT_SCREENSHOT_DIR).error
  {
    match b.takeScreenshot(DEFAULT_SCREENSHOT_DIR)
    case Err(e) => Err(e)
    case Ok(_) => Ok(Unit)
  }

  /** `map_touch_screen`. */
  function MapTouchScreen(b: DisplayBackend): (r: Result<Unit, RegmsgError>)
    ensures r.Ok? <==> b.mapTouchscreen.Ok?
    ensures r.Err? ==> r.error == b.mapTouchscreen.error
  {
    match b.mapTouchscreen
    case Err(e) => Err(e)
    case Ok(_) => Ok(Unit)
  }

  /** `current_backend`: the backend's name; it cannot fail once a backend
      is chosen. */
  function CurrentBackend(b: DisplayBackend): (r: Result<string, RegmsgError>)
    ensures r.Ok? && r.value == b.backendName
  {
    Ok(b.backendName)
  }
}
