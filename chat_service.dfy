/** The round-trip engine of chat_service.py: `ChatService.handle` grows the user's
    history in place, runs every requested tool call in order, and sends the first
    answer without tool calls through the staging extractor; `confirm_post` runs the
    staged write. */
module ChatService {
  import opened Wrappers
  import opened Json
  import opened Conversation
  import opened RoundTrip
  import opened PostHandler

  const NothingReturned: string := "Model returned nothing. Try again."
  const NothingToSubmit: string := "Nothing to submit."

  /** `tc["function"].get("arguments") or "{}"` */
  function RawArguments(arguments: Option<string>): (r: string)
    ensures r != ""
    ensures arguments.Some? && arguments.value != "" ==> r == arguments.value
    ensures arguments.None? || arguments.value == "" ==> r == "{}"
  {
    if arguments.None? || arguments.value == "" then "{}" else arguments.value
  }

  /** `json.loads(raw)`, with a bare `except` turning any failure into `{}`. */
  function DecodedArguments(arguments: Option<string>, parse: Parser): (v: Value)
    ensures parse(RawArguments(arguments)).Err? ==> v == Object([])
    ensures parse(RawArguments(arguments)).Ok? ==> v == parse(RawArguments(arguments)).value
  {
    match parse(RawArguments(arguments))
    case Ok(v) => v
    case Err(_) => Object([])
  }

  /** The cleaned arguments of one call. Decoding never aborts the turn, but a decoded
      value that is not an object has no `.items()`, and that AttributeError is outside
      any `try`. */
  function CallArguments(arguments: Option<string>, parse: Parser): (r: Result<seq<Entry>, string>)
    ensures r.Ok? <==> DecodedArguments(arguments, parse).Object?
    ensures r.Ok? ==> forall e :: e in r.value <==> e in DecodedArguments(arguments, parse).entries && Kept(e)
    ensures parse(RawArguments(arguments)).Err? ==> r == Ok([])
    ensures r.Err? ==> r.error == NoItems(parse(RawArguments(arguments)).value)
  {
    var v := DecodedArguments(arguments, parse);
    if v.Object? then Ok(Sanitize(v.entries))
    else Err(NoItems(v))
  }

  /** The content of the `tool` message for one call: the serialised result, or the
      gateway's error, which the model is left to recover from. */
  function CallContent(env: Env, h: seq<Message>, call: ToolCall): (r: Result<string, string>)
    ensures r.Err? <==> CallArguments(call.arguments, env.parse).Err?
    ensures r.Err? ==> r.error == CallArguments(call.arguments, env.parse).error
    ensures r.Ok? ==>
              var result := env.callTool(h, call.name, CallArguments(call.arguments, env.parse).value);
              (result.Ok? ==> r.value == env.dumps(result.value))
              && (result.Err? ==> r.value == "Error executing tool " + call.name + ": " + result.error)
  {
    match CallArguments(call.arguments, env.parse)
    case Err(e) => Err(e)
    case Ok(args) =>
      match env.callTool(h, call.name, args)
      case Ok(result) => Ok(env.dumps(result))
      case Err(e) => Ok("Error executing tool " + call.name + ": " + e)
  }

  function ChatStep(env: Env): Step {
    (h: seq<Message>, call: ToolCall) => CallContent(env, h, call)
  }

  /** A round whose calls all carry object arguments (or none, or undecodable ones) is
      never cut short, whatever the gateway does: every call gets its `tool` message. */
  lemma ChatRoundCompletes(h: seq<Message>, calls: seq<ToolCall>, env: Env)
    requires forall k :: 0 <= k < |calls| ==> CallArguments(calls[k].arguments, env.parse).Ok?
    ensures RunCalls(h, calls, ChatStep(env)).raised.None?
    ensures |RunCalls(h, calls, ChatStep(env)).history| == |h| + |calls|
  {
    forall k, h' | 0 <= k < |calls| ensures ChatStep(env)(h', calls[k]).Ok? {
      assert ChatStep(env)(h', calls[k]) == CallContent(env, h', calls[k]);
    }
    RunCallsTotal(h, calls, ChatStep(env));
  }

  /** `ai_msg.get("content") or "..."` */
  function FinalText(c: Completion): (r: string)
    ensures r != ""
    ensures c.content.Some? && c.content.value != "" ==> r == c.content.value
    ensures c.content.None? || c.content.value == "" ==> r == "..."
  {
    if c.content.Some? && c.content.value != "" then c.content.value else "..."
  }

  /** `user_state.setdefault("messages", [system])` followed by the append of the user's text. */
  function Seeded(messages: Option<seq<Message>>, text: string): (r: seq<Message>)
    ensures |r| >= 1 && r[|r| - 1] == User(text)
    ensures messages.Some? ==> r[..|r| - 1] == messages.value
    ensures messages.None? ==> r == [System(SystemPrompt), User(text)]
  {
    (if messages.Some? then messages.value else [System(SystemPrompt)]) + [User(text)]
  }

  /** How a turn ends: the text to show and whether a write now awaits a "Y", an
      exception that escapes `handle`, or (a modelling artifact) no fuel left. */
  datatype Outcome = Answer(display: string, awaiting: bool) | Failed(error: string) | Exhausted

  /** What a turn reports for the way the reference loop ended: the user waits for a
      confirmation exactly when a final answer staged a write. */
  function TurnOutcome(end: LoopEnd, parse: Parser): (r: Outcome)
    ensures r.Answer? && r.awaiting <==> end.Final? && Stage(FinalText(end.reply), parse).Staged?
    ensures r.Failed? <==> end.Raised? || (end.Final? && Stage(FinalText(end.reply), parse).StageRaised?)
    ensures r.Exhausted? <==> end.OutOfFuel?
  {
    match end
    case NoCompletion(_) => Answer(NothingReturned, false)
    case Raised(_, e) => Failed(e)
    case OutOfFuel(_) => Exhausted
    case Final(_, c) =>
      match Stage(FinalText(c), parse)
      case NotStaged => Answer(FinalText(c), false)
      case StageRaised(e) => Failed(e)
      case Staged(_, _, display) => Answer(display, true)
  }

  /** The `for` loop over one round's calls: one `tool` message per call, appended to
      the stored history in order, until a call raises. */
  method AnswerCalls(state: UserState, calls: seq<ToolCall>, env: Env) returns (raised: Option<string>)
    requires state.messages.Some?
    modifies state`messages
    ensures var end := RunCalls(old(state.messages.value), calls, ChatStep(env));
            state.messages == Some(end.history) && raised == end.raised
  {
    ghost var h1 := state.messages.value;
    var msgs := state.messages.value;
    var i := 0;
    while i < |calls|
      invariant 0 <= i <= |calls|
      invariant state.messages == Some(msgs)
      invariant RunCalls(h1, calls[..i], ChatStep(env)) == CallsEnd(msgs, None)
    {
      var content := CallContent(env, msgs, calls[i]);
      assert calls[..i + 1][..i] == calls[..i];
      if content.Err? {
        RunCallsRaisedStops(h1, calls, i + 1, ChatStep(env));
        return Some(content.error);
      }
      msgs := msgs + [Tool(calls[i].id, content.value)];
      state.messages := Some(msgs);
      i := i + 1;
    }
    assert calls[..i] == calls;
    return None;
  }

  /** The end of the loop at a final answer: its text, or "...", goes to the extractor. */
  method Finish(state: UserState, c: Completion, parse: Parser) returns (r: Outcome)
    requires state.Valid()
    modifies state`pendingPayload, state`pendingToolName
    ensures state.Valid()
    ensures var keep := state.pendingPayload == old(state.pendingPayload) && state.pendingToolName == old(state.pendingToolName);
            match Stage(FinalText(c), parse)
            case NotStaged => r == Answer(FinalText(c), false) && keep
            case StageRaised(e) => r == Failed(e) && keep
            case Staged(payload, tool, display) =>
              r == Answer(display, true)
              && state.pendingPayload == Some(payload) && state.pendingToolName == Some(tool)
  {
    var staged := HandleConfirmationRequest(FinalText(c), state, parse);
    if staged.Err? {
      return Failed(staged.error);
    }
    return Answer(staged.value.1, staged.value.0);
  }

  /** `ChatService.handle`. The history list lives in the user's state and is appended
      to in place, so the state keeps every message even when the turn raises. The
      result follows the reference loop `RunRounds`; a final answer goes to the staging
      extractor, which alone may write the pending keys. */
  method Handle(state: UserState, text: string, env: Env, fuel: nat) returns (r: Outcome)
    requires state.Valid()
    modifies state
    ensures state.Valid() && state.tools == old(state.tools)
    ensures var end := RunRounds(Seeded(old(state.messages), text), ToolsOf(old(state.tools)), env.complete, ChatStep(env), fuel);
            r == TurnOutcome(end, env.parse) && state.messages == Some(end.history)
    ensures var end := RunRounds(Seeded(old(state.messages), text), ToolsOf(old(state.tools)), env.complete, ChatStep(env), fuel);
            if r.Answer? && r.awaiting then
              var s := Stage(FinalText(end.reply), env.parse);
              end.Final? && s.Staged? && state.pendingPayload == Some(s.payload) && state.pendingToolName == Some(s.toolName)
            else
              state.pendingPayload == old(state.pendingPayload) && state.pendingToolName == old(state.pendingToolName)
  {
    var tools := ToolsOf(state.tools);
    ghost var end := RunRounds(Seeded(state.messages, text), tools, env.complete, ChatStep(env), fuel);
    state.messages := Some(Seeded(state.messages, text));
    var left := fuel;
    while left > 0
      invariant state.messages.Some? && state.tools == old(state.tools)
      invariant state.pendingPayload == old(state.pendingPayload) && state.pendingToolName == old(state.pendingToolName)
      invariant RunRounds(state.messages.value, tools, env.complete, ChatStep(env), left) == end
      decreases left
    {
      var reply := env.complete(state.messages.value, tools);
      if reply.Err? {
        return Failed(reply.error);
      }
      if reply.value.None? {
        return Answer(NothingReturned, false);
      }
      var c := reply.value.value;
      state.messages := Some(state.messages.value + [Assistant(c)]);
      if c.toolCalls == [] {
        r := Finish(state, c, env.parse);
        return;
      }
      var raised := AnswerCalls(state, c.toolCalls, env);
      if raised.Some? {
        return Failed(raised.value);
      }
      left := left - 1;
    }
    return Exhausted;
  }

  /** `ChatService.confirm_post`: the staged write is popped and run with no "Y" check of
      its own; the reply is the executor's text when it ran. */
  method ConfirmPost(state: UserState, callTool: WriteGateway, pretty: Printer) returns (text: string)
    requires state.Valid()
    modifies state`pendingPayload, state`pendingToolName
    ensures state.Valid() && state.pendingPayload == None && state.pendingToolName == None
    ensures var e := Execution(old(state.pendingPayload), old(state.pendingToolName), callTool, pretty);
            text == if e.0 then e.1 else NothingToSubmit
  {
    var executed, response := ExecutePending(state, callTool, pretty);
    if executed {
      return response;
    }
    return NothingToSubmit;
  }
}
