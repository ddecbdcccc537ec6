/** The per-message envelope of the daemon (src/bin/daemon/server/server.rs):
    the checks on an incoming frame, the reply for every outcome, and the
    bounded retry of the send.

    The socket is represented by what it answers to each send attempt, and
    by the record of every text handed to it. */
module Server {
  import opened Wrappers
  import opened Text
  import Utf8
  import opened CommandRegistry
  import Commands
  import ResponseHandler
  import CommandHandler

  /** The largest frame accepted, in bytes. */
  const MAX_MESSAGE_SIZE: nat := 1024 * 1024

  /** How many times a reply is handed to the socket at most. */
  const MAX_SEND_RETRIES: nat := 3

  /** A received message: its frames, each a string of bytes. */
  type Message = seq<seq<Utf8.Byte>>

  /** `extract_command`: the first frame, refused when missing, when longer
      than `MAX_MESSAGE_SIZE`, or when not UTF-8. */
  function ExtractCommand(msg: Message): (r: Result<string, string>)
    ensures msg == [] ==> r == Err("Received empty message")
    ensures msg != [] && |msg[0]| > MAX_MESSAGE_SIZE ==>
      r == Err("Message too large: " + NatToString(|msg[0]|) + " bytes (max: " + "1048576" + ")")
    ensures msg != [] && |msg[0]| <= MAX_MESSAGE_SIZE && Utf8.FromUtf8(msg[0]).Err? ==>
      r == Err("Invalid UTF-8 message: " + Utf8.ErrorMessage(Utf8.FromUtf8(msg[0]).error))
    ensures r.Ok? <==> msg != [] && |msg[0]| <= MAX_MESSAGE_SIZE && Utf8.FromUtf8(msg[0]).Ok?
    ensures r.Ok? ==> r.value == Utf8.FromUtf8(msg[0]).value
  {
    if msg == [] then Err("Received empty message")
    else
      var frame := msg[0];
      if |frame| > MAX_MESSAGE_SIZE then
        MaxSizeText();
        Err("Message too large: " + NatToString(|frame|) + " bytes (max: " + NatToString(MAX_MESSAGE_SIZE) + ")")
      else
        match Utf8.FromUtf8(frame)
        case Ok(s) => Ok(s)
        case Err(e) => Err("Invalid UTF-8 message: " + Utf8.ErrorMessage(e))
  }

  /** `DaemonServer::format_response`: the same rendering as the stand-alone
      `format_response`, over the registry's error type. */
  function FormatResponse(result: CommandResult): (reply: string)
    ensures result.Ok? ==> reply == result.value
    ensures result.Err? ==> StartsWith(reply, "Error: ")
  {
    match result
    case Ok(msg) => msg
    case Err(ExecutionError(err)) => "Error: " + err
    case Err(err) => "Error: " + Display(err)
  }

  /** The decimal text of the limit, as the refusal shows it. */
  lemma MaxSizeText()
    ensures NatToString(MAX_MESSAGE_SIZE) == "1048576"
  {
    assert NatToString(1) == "1";
    DigitsOf(1, 0, "1");
    DigitsOf(10, 4, "10");
    DigitsOf(104, 8, "104");
    DigitsOf(1048, 5, "1048");
    DigitsOf(10485, 7, "10485");
    DigitsOf(104857, 6, "104857");
  }

  /** Appending a digit to a number appends its character to the text. */
  lemma DigitsOf(n: nat, d: nat, text: string)
    requires n >= 1 && d < 10 && NatToString(n) == text
    ensures NatToString(10 * n + d) == text + [DigitChar(d)]
  {
    var m := 10 * n + d;
    assert m / 10 == n && m % 10 == d;
  }

  /** The registry's error as the stand-alone renderer's error type. */
  function AsHandlerError(e: CommandError): CommandHandler.CommandError {
    match e
    case InvalidArguments(m) => CommandHandler.InvalidArguments(m)
    case UnknownCommand(c) => CommandHandler.UnknownCommand(c)
    case ExecutionError(err) => CommandHandler.ExecutionError(err)
    case EmptyCommand => CommandHandler.EmptyCommand
  }

  /** The two renderers agree on corresponding results. */
  lemma FormatAgrees(result: CommandResult)
    ensures FormatResponse(result) ==
      ResponseHandler.FormatResponse(if result.Ok? then Ok(result.value) else Err(AsHandlerError(result.error)))
  {
  }

  /** The one reply `process_message` sends for a message: the refusal of
      a bad frame, or the rendered outcome of the request line. */
  function Reply(env: Commands.Services, commands: map<string, Handler<Commands.Services>>, msg: Message): (r: string)
    requires WellFormedTable(commands)
    ensures ExtractCommand(msg).Err? ==> r == "Error: " + ExtractCommand(msg).error
    ensures ExtractCommand(msg).Ok? && Handle(env, commands, ExtractCommand(msg).value).Ok? ==>
              r == Handle(env, commands, ExtractCommand(msg).value).value
    ensures ExtractCommand(msg).Ok? && Handle(env, commands, ExtractCommand(msg).value).Err? ==>
              StartsWith(r, "Error: ")
  {
    match ExtractCommand(msg)
    case Err(e) => "Error: " + e
    case Ok(cmdline) => FormatResponse(Handle(env, commands, cmdline))
  }

  /** The index of the first attempt, among the first `n`, that the socket
      accepts. */
  function FirstAccepted(socket: seq<Result<Unit, string>>, n: nat): (i: Option<nat>)
    requires n <= |socket|
    ensures i.Some? ==> i.value < n && socket[i.value].Ok? && forall j :: 0 <= j < i.value ==> socket[j].Err?
    ensures i.None? ==> forall j :: 0 <= j < n ==> socket[j].Err?
  {
    if n == 0 then None
    else
      match FirstAccepted(socket, n - 1)
      case Some(i) => Some(i)
      case None => if socket[n - 1].Ok? then Some(n - 1) else None
  }

  /** How many attempts `send_reply` makes: up to and including the first
      accepted one, and never more than `MAX_SEND_RETRIES`. */
  function Attempts(socket: seq<Result<Unit, string>>): nat
    requires |socket| >= MAX_SEND_RETRIES
  {
    match FirstAccepted(socket, MAX_SEND_RETRIES)
    case Some(i) => i + 1
    case None => MAX_SEND_RETRIES
  }

  /** What `send_reply` returns: success at the first accepted attempt, or
      the error of the last attempt. */
  function SendOutcome(socket: seq<Result<Unit, string>>): Result<Unit, string>
    requires |socket| >= MAX_SEND_RETRIES
  {
    match FirstAccepted(socket, MAX_SEND_RETRIES)
    case Some(_) => Ok(Unit)
    case None => Err(socket[MAX_SEND_RETRIES - 1].error)
  }

  /** `n` copies of a reply. */
  function Copies(reply: string, n: nat): (s: seq<string>)
    ensures |s| == n && forall i :: 0 <= i < n ==> s[i] == reply
  {
    if n == 0 then [] else Copies(reply, n - 1) + [reply]
  }

  /** Between one and three attempts are made; the send succeeds exactly
      when one of the first three attempts is accepted, and then the last
      attempt made is the first accepted one; otherwise all three were made
      and the third one's error is returned. */
  lemma SendBounds(socket: seq<Result<Unit, string>>)
    requires |socket| >= MAX_SEND_RETRIES
    ensures 1 <= Attempts(socket) <= MAX_SEND_RETRIES
    ensures SendOutcome(socket).Ok? <==> exists i :: 0 <= i < MAX_SEND_RETRIES && socket[i].Ok?
    ensures SendOutcome(socket).Ok? ==>
      socket[Attempts(socket) - 1].Ok? && forall j :: 0 <= j < Attempts(socket) - 1 ==> socket[j].Err?
    ensures SendOutcome(socket).Err? ==>
      Attempts(socket) == MAX_SEND_RETRIES && SendOutcome(socket).error == socket[MAX_SEND_RETRIES - 1].error
  {
  }

  /** A message without a frame is answered with a fixed refusal, whatever
      the table holds: the registry is not consulted. */
  lemma EmptyMessageReply(env: Commands.Services, commands: map<string, Handler<Commands.Services>>)
    requires WellFormedTable(commands)
    ensures Reply(env, commands, []) == "Error: Received empty message"
  {
  }

  /** A frame longer than the limit is refused with its length. */
  lemma TooLargeReply(env: Commands.Services, commands: map<string, Handler<Commands.Services>>, msg: Message)
    requires WellFormedTable(commands)
    requires msg != [] && |msg[0]| > MAX_MESSAGE_SIZE
    ensures Reply(env, commands, msg) ==
      "Error: " + ("Message too large: " + NatToString(|msg[0]|) + " bytes (max: " + "1048576" + ")")
  {
  }

  /** The bytes of any text of at most the limit, as the first frame, are
      accepted, and the reply is the rendered outcome of that text; a frame
      of exactly `MAX_MESSAGE_SIZE` bytes is not too large. */
  lemma TextAccepted(env: Commands.Services, commands: map<string, Handler<Commands.Services>>,
                     text: string, rest: Message)
    requires WellFormedTable(commands)
    requires |Utf8.Encode(text)| <= MAX_MESSAGE_SIZE
    ensures ExtractCommand([Utf8.Encode(text)] + rest) == Ok(text)
    ensures Reply(env, commands, [Utf8.Encode(text)] + rest) == FormatResponse(Handle(env, commands, text))
  {
    Utf8.FromUtf8Encode(text);
  }

  /** End to end: the bytes of a request line that names a command, within
      the limit, are answered by the rendered outcome its group prescribes
      in the table `init_commands` builds. */
  lemma RequestReply(env: Commands.Services, c: Commands.Command, text: string, args: seq<string>)
    requires SplitWhitespace(text) == [Commands.Name(c)] + args
    requires |Utf8.Encode(text)| <= MAX_MESSAGE_SIZE
    ensures Reply(env, Commands.StandardTable(), [Utf8.Encode(text)]) == FormatResponse(Commands.Outcome(env, c, args))
  {
    TextAccepted(env, Commands.StandardTable(), text, []);
    Commands.Request(env, c, text, args);
  }

  /** `DaemonServer`: the registry `init_commands` builds, the state of the
      system its commands act on, and the record of every text handed to
      the socket. */
  class DaemonServer {
    const registry: Registry<Commands.Services>
    const env: Commands.Services
    var sent: seq<string>

    ghost predicate Valid()
      reads this, registry
    {
      registry.commands == Commands.StandardTable()
    }

    /** `DaemonServer::new`, without the socket set-up: the standard table,
        and nothing sent yet. */
    constructor (env: Commands.Services)
      ensures Valid() && this.env == env && sent == []
    {
      var r := Commands.InitCommands();
      registry := r;
      this.env := env;
      sent := [];
    }

    /** `send_reply`: the reply is handed to the socket until an attempt is
        accepted, at most `MAX_SEND_RETRIES` times; `socket[i]` is the
        socket's answer to attempt `i`. */
    method SendReply(reply: string, socket: seq<Result<Unit, string>>) returns (r: Result<Unit, string>)
      requires |socket| >= MAX_SEND_RETRIES
      modifies this
      ensures sent == old(sent) + Copies(reply, Attempts(socket))
      ensures r == SendOutcome(socket)
    {
      var attempt := 0;
      while attempt < MAX_SEND_RETRIES
        invariant 0 <= attempt < MAX_SEND_RETRIES
        invariant FirstAccepted(socket, attempt).None?
        invariant sent == old(sent) + Copies(reply, attempt)
      {
        sent := sent + [reply];
        match socket[attempt]
        case Ok(_) =>
          assert FirstAccepted(socket, MAX_SEND_RETRIES) == Some(attempt) by {
            AcceptedPrefix(socket, attempt + 1, MAX_SEND_RETRIES);
          }
          return Ok(Unit);
        case Err(e) =>
          if attempt == MAX_SEND_RETRIES - 1 {
            return Err(e);
          }
        attempt := attempt + 1;
      }
    }

    /** `process_message`: exactly one reply, the one `Reply` gives, handed
        to the socket as `send_reply` does; the outcome is the send's. */
    method ProcessMessage(msg: Message, socket: seq<Result<Unit, string>>) returns (r: Result<Unit, string>)
      requires Valid() && |socket| >= MAX_SEND_RETRIES
      modifies this
      ensures Valid()
      ensures sent == old(sent) + Copies(Reply(env, Commands.StandardTable(), msg), Attempts(socket))
      ensures r == SendOutcome(socket)
    {
      var cmdline := ExtractCommand(msg);
      if cmdline.Err? {
        var errorMsg := "Error: " + cmdline.error;
        r := SendReply(errorMsg, socket);
        return;
      }
      var result := Handle(env, registry.commands, cmdline.value);
      var reply := FormatResponse(result);
      r := SendReply(reply, socket);
    }
  }

  /** A first accepted attempt within a prefix stays the first one in any
      longer prefix. */
  lemma {:induction false} AcceptedPrefix(socket: seq<Result<Unit, string>>, m: nat, n: nat)
    requires m <= n <= |socket|
    requires FirstAccepted(socket, m).Some?
    ensures FirstAccepted(socket, n) == FirstAccepted(socket, m)
    decreases n
  {
    if n > m {
      AcceptedPrefix(socket, m, n - 1);
    }
  }
}
