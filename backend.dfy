/** The display-backend abstraction (src/bin/daemon/screen/backend.rs): the
    record types the backends exchange, the backend interface as a record
    of operations, and `BackendManager`, the list of registered backends. */
module Backend {
  import opened Wrappers
  import opened Text
  import opened UtilsError

  datatype DisplayMode = DisplayMode(width: U32, height: U32, refreshRate: U32, name: string)

  datatype DisplayOutput = DisplayOutput(
    name: string,
    modes: seq<DisplayMode>,
    currentMode: Option<DisplayMode>,
    isConnected: bool,
    rotation: U32)

  datatype ModeParams = ModeParams(width: U32, height: U32, refreshRate: U32)

  datatype RotationParams = RotationParams(rotation: U32)

  /** The `DisplayBackend` interface: each operation is what one backend
      answers, with the compositor or device behind it left abstract.  The
      screen argument is `Option<&str>`. */
  datatype DisplayBackend = DisplayBackend(
    listOutputs: Result<seq<DisplayOutput>, RegmsgError>,
    listModes: Option<string> -> Result<seq<DisplayMode>, RegmsgError>,
    currentMode: Option<string> -> Result<DisplayMode, RegmsgError>,
    currentResolution: Option<string> -> Result<(U32, U32), RegmsgError>,
    currentRefreshRate: Option<string> -> Result<U32, RegmsgError>,
    currentRotation: Option<string> -> Result<U32, RegmsgError>,
    setMode: (Option<string>, ModeParams) -> Result<Unit, RegmsgError>,
    setRotation: (Option<string>, RotationParams) -> Result<Unit, RegmsgError>,
    setMaxResolution: (Option<string>, Option<string>) -> Result<Unit, RegmsgError>,
    takeScreenshot: string -> Result<string, RegmsgError>,
    mapTouchscreen: Result<Unit, RegmsgError>,
    backendName: string)

  /** The backend `get_active_backend` picks from a list: the first one. */
  function Active(backends: seq<DisplayBackend>): (r: Option<DisplayBackend>)
    ensures r.None? <==> backends == []
    ensures r.Some? ==> r.value == backends[0] && r.value in backends
  {
    if |backends| == 0 then None else Some(backends[0])
  }

  /** Backends added after the first never displace it: the active backend
      is the first one ever added. */
  lemma {:induction false} ActiveIsFirstAdded(first: DisplayBackend, later: seq<DisplayBackend>)
    ensures Active([first] + later) == Some(first)
  {
    assert ([first] + later)[0] == first;
  }

  /** Adding a backend to a non-empty list keeps the active backend. */
  lemma ActiveKeptByAdd(backends: seq<DisplayBackend>, b: DisplayBackend)
    requires backends != []
    ensures Active(backends + [b]) == Active(backends)
  {
    assert (backends + [b])[0] == backends[0];
  }

  class BackendManager {
    var backends: seq<DisplayBackend>

    /** `BackendManager::new`: no backend yet. */
    constructor()
      ensures backends == []
    {
      backends := [];
    }

    /** `add_backend`: the backend goes at the end, the others keep their
        positions. */
    method AddBackend(backend: DisplayBackend)
      modifies this
      ensures backends == old(backends) + [backend]
      ensures forall i :: 0 <= i < |old(backends)| ==> backends[i] == old(backends)[i]
      ensures old(backends) != [] ==> Active(backends) == Active(old(backends))
    {
      backends := backends + [backend];
      if |old(backends)| > 0 {
        ActiveKeptByAdd(old(backends), backend);
      }
    }

    /** `get_active_backend`: the first backend added, if any.  It reads the
        manager and changes nothing. */
    method GetActiveBackend() returns (r: Option<DisplayBackend>)
      ensures r == Active(backends)
      ensures r.None? <==> backends == []
    {
      if |backends| == 0 {
        r := None;
      } else {
        r := Some(backends[0]);
      }
    }
  }

  /** A fresh manager has no active backend; after two `add_backend` calls
      the active backend is the first one added. */
  method ManagerScenario(test: DisplayBackend, other: DisplayBackend) returns (active: Option<DisplayBackend>)
    ensures active == Some(test)
  {
    var manager := new BackendManager();
    var none := manager.GetActiveBackend();
    assert none.None?;
    manager.AddBackend(test);
    manager.AddBackend(other);
    active := manager.GetActiveBackend();
  }
}
