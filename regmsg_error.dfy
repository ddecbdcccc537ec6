/** The daemon's error type `RegmsgError` (src/bin/daemon/utils/error.rs):
    its variants, their `Display` texts, the hand-written `Clone`, and the
    `From` conversions from library errors. */
module UtilsError {
  import opened Text
  import Utf8

  /** The library errors that convert into `RegmsgError`.  An `io::Error`,
      a `chrono` error and the TOML errors are known here only by their
      `Display` text. */
  datatype ForeignError =
    | ParseInt(kind: IntErrorKind)
    | FromUtf8(utf8: Utf8.Utf8Error)
    | Chrono(text: string)
    | TomlSer(text: string)
    | TomlDe(text: string)
    | Io(text: string)

  /** The `Display` text of a library error. */
  function ForeignMessage(f: ForeignError): string {
    match f
    case ParseInt(k) => IntErrorMessage(k)
    case FromUtf8(u) => Utf8.ErrorMessage(u)
    case Chrono(t) => t
    case TomlSer(t) => t
    case TomlDe(t) => t
    case Io(t) => t
  }

  datatype RegmsgError =
    | BackendError(backend: string, message: string)
    | InvalidArguments(msg: string)
    | IoError(io: string)
    | ConversionError(msg: string)
    | ParseError(msg: string)
    | NotFound(msg: string)
    | SystemError(msg: string)

  /** The fixed text that `Display` puts before the payload of each
      single-payload variant. */
  function Prefix(e: RegmsgError): string
    requires !e.BackendError?
  {
    match e
    case InvalidArguments(_) => "Invalid arguments: "
    case IoError(_) => "I/O error: "
    case ConversionError(_) => "Conversion error: "
    case ParseError(_) => "Parse error: "
    case NotFound(_) => "Resource not found: "
    case SystemError(_) => "System error: "
  }

  /** The payload of a single-payload variant. */
  function Payload(e: RegmsgError): string
    requires !e.BackendError?
  {
    if e.IoError? then e.io else e.msg
  }

  /** The `#[error(...)]` texts. */
  function Display(e: RegmsgError): (s: string)
    ensures e.BackendError? ==> s == "Backend error " + e.backend + ": " + e.message
    ensures !e.BackendError? ==> s == Prefix(e) + Payload(e)
  {
    match e
    case BackendError(b, m) => "Backend error " + b + ": " + m
    case InvalidArguments(m) => "Invalid arguments: " + m
    case IoError(t) => "I/O error: " + t
    case ConversionError(m) => "Conversion error: " + m
    case ParseError(m) => "Parse error: " + m
    case NotFound(m) => "Resource not found: " + m
    case SystemError(m) => "System error: " + m
  }

  /** The hand-written `Clone`: every variant is copied with its payload
      except `IoError`, which cannot be cloned and becomes a generic
      `SystemError`. */
  function Clone(e: RegmsgError): (c: RegmsgError)
    ensures !e.IoError? ==> c == e
    ensures e.IoError? ==> c == SystemError("I/O Error")
  {
    match e
    case BackendError(b, m) => BackendError(b, m)
    case InvalidArguments(m) => InvalidArguments(m)
    case IoError(_) => SystemError("I/O Error")
    case ConversionError(m) => ConversionError(m)
    case ParseError(m) => ParseError(m)
    case NotFound(m) => NotFound(m)
    case SystemError(m) => SystemError(m)
  }

  /** The `From` conversions. */
  function From(f: ForeignError): (e: RegmsgError)
    ensures f.ParseInt? || f.Chrono? <==> e.ParseError?
    ensures f.FromUtf8? <==> e.ConversionError?
    ensures f.TomlSer? || f.TomlDe? <==> e.SystemError?
    ensures f.Io? <==> e.IoError?
    ensures !e.BackendError? && Payload(e) == ForeignMessage(f)
  {
    match f
    case ParseInt(_) => ParseError(ForeignMessage(f))
    case FromUtf8(_) => ConversionError(ForeignMessage(f))
    case Chrono(_) => ParseError(ForeignMessage(f))
    case TomlSer(_) => SystemError(ForeignMessage(f))
    case TomlDe(_) => SystemError(ForeignMessage(f))
    case Io(t) => IoError(t)
  }

  /** Cloning twice is cloning once, and a clone displays like the
      original unless the original was an `IoError`. */
  lemma CloneStable(e: RegmsgError)
    ensures Clone(Clone(e)) == Clone(e)
    ensures !e.IoError? ==> Display(Clone(e)) == Display(e)
    ensures e.IoError? ==> Display(Clone(e)) == "System error: I/O Error"
  {
  }

  /** The prefixes are pairwise distinct and none extends another, so the
      text of a single-payload error identifies its variant and its
      payload. */
  lemma DisplayInjective(e1: RegmsgError, e2: RegmsgError)
    requires !e1.BackendError? && !e2.BackendError?
    requires Display(e1) == Display(e2)
    ensures e1 == e2
  {
    var s := Display(e1);
    // Distinct prefixes already differ in their first two characters.
    assert s[0] == Prefix(e1)[0] && s[1] == Prefix(e1)[1];
    assert s[0] == Prefix(e2)[0] && s[1] == Prefix(e2)[1];
    assert Prefix(e1) == Prefix(e2);
    assert s[|Prefix(e1)|..] == Payload(e1) == Payload(e2);
  }

  /** A `BackendError`'s text does not determine its two fields: the
      separator ": " may occur inside the backend name. */
  lemma BackendDisplayAmbiguous()
    ensures Display(BackendError("a: b", "c")) == Display(BackendError("a", "b: c"))
  {
    assert "Backend error " + "a: b" + ": " + "c" == "Backend error " + "a" + ": " + "b: c";
  }

  /** A failed integer parse converts to a `ParseError` that displays the
      library's own message. */
  lemma ParseIntDisplay(k: IntErrorKind)
    ensures Display(From(ParseInt(k))) == "Parse error: " + IntErrorMessage(k)
  {
  }
}

/** The second copy of `RegmsgError` (src/bin/daemon/error.rs): the same
    variants and texts, with the `From` conversions but no `Clone`. */
module DaemonError {
  import opened Text
  import Utf8
  import UtilsError

  datatype RegmsgError =
    | BackendError(backend: string, message: string)
    | InvalidArguments(msg: string)
    | IoError(io: string)
    | ConversionError(msg: string)
    | ParseError(msg: string)
    | NotFound(msg: string)
    | SystemError(msg: string)

  function Display(e: RegmsgError): string {
    match e
    case BackendError(b, m) => "Backend error " + b + ": " + m
    case InvalidArguments(m) => "Invalid arguments: " + m
    case IoError(t) => "I/O error: " + t
    case ConversionError(m) => "Conversion error: " + m
    case ParseError(m) => "Parse error: " + m
    case NotFound(m) => "Resource not found: " + m
    case SystemError(m) => "System error: " + m
  }

  function From(f: UtilsError.ForeignError): RegmsgError {
    match f
    case ParseInt(_) => ParseError(UtilsError.ForeignMessage(f))
    case FromUtf8(_) => ConversionError(UtilsError.ForeignMessage(f))
    case Chrono(_) => ParseError(UtilsError.ForeignMessage(f))
    case TomlSer(_) => SystemError(UtilsError.ForeignMessage(f))
    case TomlDe(_) => SystemError(UtilsError.ForeignMessage(f))
    case Io(t) => IoError(t)
  }

  /** The variant-for-variant correspondence with the utilities copy. */
  function ToUtils(e: RegmsgError): UtilsError.RegmsgError {
    match e
    case BackendError(b, m) => UtilsError.BackendError(b, m)
    case InvalidArguments(m) => UtilsError.InvalidArguments(m)
    case IoError(t) => UtilsError.IoError(t)
    case ConversionError(m) => UtilsError.ConversionError(m)
    case ParseError(m) => UtilsError.ParseError(m)
    case NotFound(m) => UtilsError.NotFound(m)
    case SystemError(m) => UtilsError.SystemError(m)
  }

  /** The two copies agree: corresponding errors display the same text, and
      every library error converts to corresponding variants. */
  lemma AgreesWithUtils(e: RegmsgError, f: UtilsError.ForeignError)
    ensures Display(e) == UtilsError.Display(ToUtils(e))
    ensures ToUtils(From(f)) == UtilsError.From(f)
  {
  }

  /** An `io::Error` keeps its message through `From` and `Display`. */
  lemma IoDisplay(message: string)
    ensures From(UtilsError.Io(message)) == IoError(message)
    ensures Display(From(UtilsError.Io(message))) == "I/O error: " + message
  {
  }
}
