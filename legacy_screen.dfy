/** The first screen layer's entry points (src/screen/mod.rs): the backend
    is chosen from the environment on every call, mode strings are parsed
    here, and the request goes either to the Wayland functions or to the
    KMS/DRM functions.  Whether WAYLAND_DISPLAY is set is a parameter; the
    KMS/DRM functions are taken as given. */
module LegacyScreen {
  import opened Wrappers
  import opened Text
  import opened Sway
  import UtilsError
  import DaemonScreen
  import LegacyWayland

  const WAYLAND: string := "Wayland"
  const KMS_DRM: string := "KMS/DRM"

  /** `detect_backend`: "Wayland" exactly when WAYLAND_DISPLAY is set. */
  function DetectBackend(waylandDisplaySet: bool): (name: string)
    ensures name == WAYLAND <==> waylandDisplaySet
    ensures name == KMS_DRM <==> !waylandDisplaySet
  {
    if waylandDisplaySet then WAYLAND else KMS_DRM
  }

  /** `current_backend`: the detected backend's name, never an error. */
  function CurrentBackend(waylandDisplaySet: bool): (r: Result<string, string>)
    ensures r.Ok? && (r.value == WAYLAND <==> waylandDisplaySet)
  {
    Ok(DetectBackend(waylandDisplaySet))
  }

  const MODE_FORMAT_ERROR: string := "Invalid mode format. Use 'WxH@R' or 'WxH'"

  /** `parse_mode`: the same rules as the daemon's, with the errors as bare
      messages. */
  function ParseMode(mode: string): (r: Result<DaemonScreen.ModeInfo, string>)
    ensures var n := |Split(mode, DaemonScreen.MODE_SEPARATORS)|;
      r == Err(MODE_FORMAT_ERROR) <==> n < 2 || n > 3
    ensures var p := Split(mode, DaemonScreen.MODE_SEPARATORS);
      r.Ok? <==> 2 <= |p| <= 3 && ParseI32(p[0]).Ok? && ParseI32(p[1]).Ok? && (|p| == 3 ==> ParseI32(p[2]).Ok?)
    ensures var p := Split(mode, DaemonScreen.MODE_SEPARATORS);
      r.Ok? ==> r.value.width == ParseI32(p[0]).value && r.value.height == ParseI32(p[1]).value
                && r.value.vrefresh == (if |p| == 3 then ParseI32(p[2]).value else 60)
    ensures var p := Split(mode, DaemonScreen.MODE_SEPARATORS);
      r == Err("Invalid width") <==> 2 <= |p| <= 3 && ParseI32(p[0]).Err?
    ensures var p := Split(mode, DaemonScreen.MODE_SEPARATORS);
      r == Err("Invalid height") <==> 2 <= |p| <= 3 && ParseI32(p[0]).Ok? && ParseI32(p[1]).Err?
    ensures var p := Split(mode, DaemonScreen.MODE_SEPARATORS);
      r == Err("Invalid refresh rate") <==>
        |p| == 3 && ParseI32(p[0]).Ok? && ParseI32(p[1]).Ok? && ParseI32(p[2]).Err?
  {
    var parts := Split(mode, DaemonScreen.MODE_SEPARATORS);
    if |parts| < 2 || |parts| > 3 then Err(MODE_FORMAT_ERROR)
    else
      match ParseI32(parts[0])
      case Err(_) => Err("Invalid width")
      case Ok(width) =>
        match ParseI32(parts[1])
        case Err(_) => Err("Invalid height")
        case Ok(height) =>
          if |parts| == 3 then
            match ParseI32(parts[2])
            case Err(_) => Err("Invalid refresh rate")
            case Ok(vrefresh) => Ok(DaemonScreen.ModeInfo(width, height, vrefresh))
          else Ok(DaemonScreen.ModeInfo(width, height, 60))
  }

  /** The two `parse_mode` functions accept the same strings with the same
      values, and refuse the others with the same message; the daemon's
      wraps it in `InvalidArguments` or `ParseError`. */
  lemma ParseModeAgrees(mode: string)
    ensures ParseMode(mode).Ok? <==> DaemonScreen.ParseMode(mode).Ok?
    ensures ParseMode(mode).Ok? ==> ParseMode(mode).value == DaemonScreen.ParseMode(mode).value
    ensures ParseMode(mode).Err? ==>
      var e := DaemonScreen.ParseMode(mode).error;
      (e == UtilsError.InvalidArguments(ParseMode(mode).error) && ParseMode(mode).error == MODE_FORMAT_ERROR)
      || e == UtilsError.ParseError(ParseMode(mode).error)
  {
  }

  /** The routine a request reaches, with its arguments: the same for both
      backends. */
  datatype Request =
    | MaxResolution(screen: Option<string>, limit: Option<string>)
    | Mode(screen: Option<string>, width: I32, height: I32, vrefresh: I32)

  const MAX_PREFIX: string := "max-"

  /** What `set_mode` asks of the backend: a "max-" prefix (every repeat of
      it) is cut off and the rest is the limit, unparsed; otherwise the
      mode is parsed first and its error ends the call. */
  function SetModeRequest(screen: Option<string>, mode: string): (r: Result<Request, string>)
    ensures StartsWith(mode, MAX_PREFIX) ==> r == Ok(MaxResolution(screen, Some(TrimStartMatches(mode, MAX_PREFIX))))
    ensures !StartsWith(mode, MAX_PREFIX) ==> (r.Err? <==> ParseMode(mode).Err?)
    ensures !StartsWith(mode, MAX_PREFIX) && r.Err? ==> r.error == ParseMode(mode).error
    ensures !StartsWith(mode, MAX_PREFIX) && r.Ok? ==>
      var m := ParseMode(mode).value; r.value == Mode(screen, m.width, m.height, m.vrefresh)
  {
    if StartsWith(mode, MAX_PREFIX) then Ok(MaxResolution(screen, Some(TrimStartMatches(mode, MAX_PREFIX))))
    else
      match ParseMode(mode)
      case Err(e) => Err(e)
      case Ok(m) => Ok(Mode(screen, m.width, m.height, m.vrefresh))
  }

  /** `n` copies of `p`. */
  function Repeat(p: string, n: nat): string {
    if n == 0 then [] else p + Repeat(p, n - 1)
  }

  lemma {:induction false} PrefixesStripped(n: nat, rest: string)
    requires !StartsWith(rest, MAX_PREFIX)
    ensures TrimStartMatches(Repeat(MAX_PREFIX, n) + rest, MAX_PREFIX) == rest
  {
    if n > 0 {
      StripStep(MAX_PREFIX, n, rest);
      PrefixesStripped(n - 1, rest);
    } else {
      StripNone(MAX_PREFIX, rest);
    }
  }

  lemma StripStep(p: string, n: nat, rest: string)
    requires p != [] && n > 0
    ensures TrimStartMatches(Repeat(p, n) + rest, p) == TrimStartMatches(Repeat(p, n - 1) + rest, p)
  {
    var t := Repeat(p, n - 1) + rest;
    assert Repeat(p, n) + rest == p + t;
    TrimOnce(p, t);
  }

  lemma StripNone(p: string, rest: string)
    requires p != [] && !StartsWith(rest, p)
    ensures TrimStartMatches(Repeat(p, 0) + rest, p) == rest
  {
    assert Repeat(p, 0) + rest == rest;
  }

  /** One copy of the pattern in front is removed and the trimming goes
      on with what follows. */
  lemma TrimOnce(p: string, t: string)
    requires p != []
    ensures TrimStartMatches(p + t, p) == TrimStartMatches(t, p)
  {
    assert (p + t)[..|p|] == p;
    assert (p + t)[|p|..] == t;
  }

  /** Every leading "max-" goes, not just the first: the limit is what
      follows the last of them. */
  lemma RepeatedPrefixStripped(screen: Option<string>, n: nat, rest: string)
    requires n >= 1 && !StartsWith(rest, MAX_PREFIX)
    ensures SetModeRequest(screen, Repeat(MAX_PREFIX, n) + rest) == Ok(MaxResolution(screen, Some(rest)))
  {
    var m := Repeat(MAX_PREFIX, n) + rest;
    assert m[..|MAX_PREFIX|] == MAX_PREFIX;
    PrefixesStripped(n, rest);
  }

  /** The KMS/DRM functions the dispatchers call, as given. */
  datatype DrmFunctions = DrmFunctions(
    toMaxResolution: (Option<string>, Option<string>) -> Result<Unit, string>,
    setMode: (Option<string>, I32, I32, I32) -> Result<Unit, string>)

  /** The result of a request on the KMS/DRM side. */
  function DrmOutcome(drm: DrmFunctions, request: Request): Result<Unit, string> {
    match request
    case MaxResolution(screen, limit) => drm.toMaxResolution(screen, limit)
    case Mode(screen, w, h, r) => drm.setMode(screen, w, h, r)
  }

  /** Whether the Wayland side can take a request: with no screen named,
      `order` must list the outputs' names as the output map yields them. */
  predicate Addressable(conn: SwayConnection, request: Request, order: seq<string>)
    reads conn
  {
    request.Mode? && request.screen.None? ==> IsKeyOrder(order, conn.outputs)
  }

  /** The result of a request on the Wayland side. */
  function WaylandOutcome(conn: SwayConnection, request: Request, order: seq<string>): Result<Unit, string>
    reads conn
    requires Addressable(conn, request, order)
  {
    match request
    case MaxResolution(screen, limit) => LegacyWayland.MinToMaxOutcome(conn.outputs, conn.reply, screen, limit)
    case Mode(screen, w, h, r) => LegacyWayland.SetModeOutcome(conn.outputs, conn.reply, screen, w, h, r, order)
  }

  /** The commands a request sends on the Wayland side. */
  function WaylandSent(conn: SwayConnection, request: Request, order: seq<string>): seq<string>
    reads conn
    requires Addressable(conn, request, order)
  {
    match request
    case MaxResolution(screen, limit) => LegacyWayland.MinToMaxSent(conn.outputs, screen, limit)
    case Mode(screen, w, h, r) => LegacyWayland.SetModeSent(conn.outputs, conn.reply, screen, w, h, r, order)
  }

  /** Carries a request out on the detected backend. */
  method Dispatch(conn: SwayConnection, drm: DrmFunctions, waylandDisplaySet: bool, request: Request, order: seq<string>)
    returns (r: Result<Unit, string>)
    requires Addressable(conn, request, order)
    modifies conn
    ensures !waylandDisplaySet ==> r == DrmOutcome(drm, request) && conn.sent == old(conn.sent)
    ensures waylandDisplaySet ==>
      r == WaylandOutcome(conn, request, order) && conn.sent == old(conn.sent) + WaylandSent(conn, request, order)
  {
    if DetectBackend(waylandDisplaySet) == WAYLAND {
      match request {
        case MaxResolution(screen, limit) =>
          r := LegacyWayland.MinToMaxResolution(conn, screen, limit);
        case Mode(screen, w, h, v) =>
          r := LegacyWayland.SetMode(conn, screen, w, h, v, order);
      }
    } else {
      r := DrmOutcome(drm, request);
    }
  }

  /** `set_mode`: a mode that does not parse is refused before either
      backend is reached. */
  method SetMode(conn: SwayConnection, drm: DrmFunctions, waylandDisplaySet: bool, screen: Option<string>, mode: string,
                 order: seq<string>)
    returns (r: Result<Unit, string>)
    requires screen.None? ==> IsKeyOrder(order, conn.outputs)
    modifies conn
    ensures SetModeRequest(screen, mode).Err? ==> r == Err(SetModeRequest(screen, mode).error) && conn.sent == old(conn.sent)
    ensures SetModeRequest(screen, mode).Ok? && !waylandDisplaySet ==>
      r == DrmOutcome(drm, SetModeRequest(screen, mode).value) && conn.sent == old(conn.sent)
    ensures SetModeRequest(screen, mode).Ok? && waylandDisplaySet ==>
      var request := SetModeRequest(screen, mode).value;
      r == WaylandOutcome(conn, request, order) && conn.sent == old(conn.sent) + WaylandSent(conn, request, order)
  {
    var request := SetModeRequest(screen, mode);
    if request.Err? {
      return Err(request.error);
    }
    r := Dispatch(conn, drm, waylandDisplaySet, request.value, order);
  }

  const DEFAULT_MAX_RESOLUTION: string := "1920x1080"

  /** `min_to_max_resolution`: the max-resolution routine with the fixed
      limit "1920x1080". */
  function MinToMaxRequest(screen: Option<string>): (request: Request)
    ensures request == MaxResolution(screen, Some(DEFAULT_MAX_RESOLUTION))
  {
    MaxResolution(screen, Some(DEFAULT_MAX_RESOLUTION))
  }

  /** `min_to_max_resolution` asks for what `set_mode` with "max-1920x1080"
      asks for. */
  lemma MinToMaxIsSetModeMax(screen: Option<string>)
    ensures SetModeRequest(screen, MAX_PREFIX + DEFAULT_MAX_RESOLUTION) == Ok(MinToMaxRequest(screen))
  {
    var mode := MAX_PREFIX + DEFAULT_MAX_RESOLUTION;
    assert StartsWith(mode, MAX_PREFIX);
    assert mode[4..] == DEFAULT_MAX_RESOLUTION;
    assert !StartsWith(DEFAULT_MAX_RESOLUTION, MAX_PREFIX) by {
      assert DEFAULT_MAX_RESOLUTION[0] == '1';
    }
    assert TrimStartMatches(mode, MAX_PREFIX) == DEFAULT_MAX_RESOLUTION;
  }

  /** On Wayland, the fixed limit is the one the routine uses when given
      none. */
  lemma FixedLimitIsDefault()
    ensures LegacyWayland.ParseLimit(Some(DEFAULT_MAX_RESOLUTION)) == Ok(LegacyWayland.DEFAULT_LIMIT)
  {
    assert NatToString(1920) == "1920" && NatToString(1080) == "1080";
    assert DEFAULT_MAX_RESOLUTION == NatToString(1920) + "x" + NatToString(1080);
    LegacyWayland.ParseLimitText(1920, 1080);
  }

  /** `min_to_max_resolution`. */
  method MinToMaxResolution(conn: SwayConnection, drm: DrmFunctions, waylandDisplaySet: bool, screen: Option<string>)
    returns (r: Result<Unit, string>)
    modifies conn
    ensures !waylandDisplaySet ==> r == drm.toMaxResolution(screen, Some(DEFAULT_MAX_RESOLUTION)) && conn.sent == old(conn.sent)
    ensures waylandDisplaySet ==>
      r == LegacyWayland.MinToMaxOutcome(conn.outputs, conn.reply, screen, Some(DEFAULT_MAX_RESOLUTION))
      && conn.sent == old(conn.sent) + LegacyWayland.MinToMaxSent(conn.outputs, screen, Some(DEFAULT_MAX_RESOLUTION))
  {
    r := Dispatch(conn, drm, waylandDisplaySet, MinToMaxRequest(screen), []);
  }

  /** `map_touch_screen`: on KMS/DRM there is nothing to do and the call
      succeeds. */
  method MapTouchScreen(conn: SwayConnection, waylandDisplaySet: bool) returns (r: Result<Unit, string>)
    modifies conn
    ensures !waylandDisplaySet ==> r == Ok(Unit) && conn.sent == old(conn.sent)
    ensures waylandDisplaySet ==>
      r == LegacyWayland.TouchOutcome(conn.inputs, conn.outputs, conn.reply)
      && conn.sent == old(conn.sent) + LegacyWayland.TouchSent(conn.inputs, conn.outputs)
  {
    if DetectBackend(waylandDisplaySet) == WAYLAND {
      r := LegacyWayland.MapTouchScreen(conn);
    } else {
      r := Ok(Unit);
    }
  }
}
