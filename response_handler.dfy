/** The reply renderer `format_response`
    (src/bin/daemon/server/response_handler.rs): a command result becomes
    the one line sent back to the client. */
module ResponseHandler {
  import opened Wrappers
  import opened Text
  import opened CommandHandler

  /** A success is its payload; an execution error is "Error: " and the
      inner message, without the "Execution error: " of its `Display`; any
      other error is "Error: " and its `Display`. */
  function FormatResponse(result: CommandResult): (reply: string)
    ensures result.Ok? ==> reply == result.value
    ensures result.Err? ==> StartsWith(reply, "Error: ")
    ensures result.Err? && result.error.ExecutionError? ==> reply == "Error: " + result.error.err
    ensures result.Err? && !result.error.ExecutionError? ==> reply == "Error: " + Display(result.error)
  {
    match result
    case Ok(msg) => msg
    case Err(ExecutionError(err)) => "Error: " + err
    case Err(err) => "Error: " + Display(err)
  }

  /** The replies for the errors of the dispatch itself. */
  lemma ErrorReplies(m: string, c: string)
    ensures FormatResponse(Err(InvalidArguments(m))) == "Error: " + "Invalid arguments: " + m
    ensures FormatResponse(Err(UnknownCommand(c))) == "Error: " + "Unknown command: " + c
    ensures FormatResponse(Err(EmptyCommand)) == "Error: " + "Empty command"
  {
    ConcatAssoc("Error: ", "Invalid arguments: ", m);
    ConcatAssoc("Error: ", "Unknown command: ", c);
  }

  lemma ConcatAssoc(a: string, b: string, c: string)
    ensures a + (b + c) == a + b + c
  {
  }

  /** An execution error is not rendered by its `Display`: the reply lacks
      the "Execution error: " that `Display` would put after "Error: ". */
  lemma ExecutionErrorSkipsDisplay(e: string)
    ensures FormatResponse(Err(ExecutionError(e))) != "Error: " + Display(ExecutionError(e))
  {
    var reply := FormatResponse(Err(ExecutionError(e)));
    var shown := "Error: " + Display(ExecutionError(e));
    assert |shown| == |reply| + |"Execution error: "|;
  }

  /** The reply does not tell the kind of failure apart: an execution error
      whose message reads like an argument error renders the same, and a
      success whose payload starts with "Error: " reads like a failure. */
  lemma RepliesAmbiguous(m: string)
    ensures FormatResponse(Err(ExecutionError("Invalid arguments: " + m))) == FormatResponse(Err(InvalidArguments(m)))
    ensures FormatResponse(Ok("Error: " + m)) == FormatResponse(Err(ExecutionError(m)))
  {
    ConcatAssoc("Error: ", "Invalid arguments: ", m);
  }
}
