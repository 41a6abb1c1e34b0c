/** What a conversation is made of: the messages of a history, the tool calls the
    model requests, the external collaborators (completion provider, tool gateway,
    JSON codec) and the per-user state dictionary that the chat engine and the
    staged-write handlers share. */
module Conversation {
  import opened Wrappers
  import opened Json

  /** `SYSTEM_PROMPT` (ai_services.py). */
  const SystemPrompt: string :=
    "You are a helpful and friendly AI assistant. Your name is CemTemChat AI. "
    + "Keep your responses concise, friendly, and easy to understand. Do not mention that "
    + "you are an AI unless it is directly relevant to the conversation."

  /** One requested invocation: `{"id", "function": {"name", "arguments"}}`.
      `arguments` is the raw JSON text, absent when the provider sent none. */
  datatype ToolCall = ToolCall(id: string, name: string, arguments: Option<string>)

  /** The assistant message a completion yields; a missing `tool_calls` key reads as `[]`. */
  datatype Completion = Completion(content: Option<string>, toolCalls: seq<ToolCall>)

  datatype Message =
    | System(text: string)
    | User(text: string)
    | Assistant(reply: Completion)
    | Tool(toolCallId: string, content: string)

  /** The completion provider: the next assistant message for a history and a tool list,
      `None` when it returns nothing (a falsy message), or the text of the exception it
      raises. Because every round lengthens the history, a function of the history can
      play any sequence of answers. */
  type Provider = (seq<Message>, seq<Value>) -> Result<Option<Completion>, string>

  /** The remote tool gateway (`mcp_call_tool`): a result, or the text of the exception it
      raises. It sees the history so far, so it too may answer differently over time. */
  type Gateway = (seq<Message>, string, seq<Entry>) -> Result<Value, string>

  /** The collaborators a conversational turn runs against. */
  datatype Env = Env(complete: Provider, callTool: Gateway, parse: Parser, dumps: Printer)

  /** A per-user state dictionary (`context.user_data`, or a `user_state` dict of the
      Socket.IO table): the keys `messages`, `mcp_tools`, `pending_tool_payload` and
      `pending_tool_name`, each possibly absent. */
  class UserState {
    var messages: Option<seq<Message>>
    var tools: Option<seq<Value>>
    var pendingPayload: Option<Value>
    var pendingToolName: Option<string>

    /** The two pending keys are written together and popped together. */
    ghost predicate Valid()
      reads this
    {
      pendingPayload.Some? <==> pendingToolName.Some?
    }

    constructor (messages: Option<seq<Message>>, tools: Option<seq<Value>>)
      ensures Valid()
      ensures this.messages == messages && this.tools == tools
      ensures pendingPayload == None && pendingToolName == None
    {
      this.messages := messages;
      this.tools := tools;
      pendingPayload := None;
      pendingToolName := None;
    }
  }

  /** `state.get("mcp_tools", [])`: the tool list a state offers the provider. */
  function ToolsOf(tools: Option<seq<Value>>): seq<Value> {
    if tools.Some? then tools.value else []
  }

  // ---------------------------------------------------------------------------
  // Argument clean-up

  /** Tool-schema metadata keys that a model sometimes echoes into call arguments. */
  const MetadataKeys: set<string> :=
    {"inputSchema", "name", "parameters", "title", "description",
     "outputSchema", "icons", "_meta", "annotations", "required"}

  predicate Kept(e: Entry) {
    e.key !in MetadataKeys && !e.val.Null?
  }

  /** `{k: v for k, v in args.items() if k not in CLEAN and v is not None}` */
  function Sanitize(args: seq<Entry>): (r: seq<Entry>)
    ensures |r| <= |args|
    ensures forall e :: e in r ==> e in args && Kept(e)
    ensures forall e :: e in args && Kept(e) ==> e in r
  {
    if args == [] then []
    else
      var rest := Sanitize(args[1..]);
      assert forall e :: e in args ==> e == args[0] || e in args[1..];
      (if Kept(args[0]) then [args[0]] else []) + rest
  }

  /** The clean-up works entry by entry: it keeps the order of what it keeps. */
  lemma {:induction false} SanitizeConcat(a: seq<Entry>, b: seq<Entry>)
    ensures Sanitize(a + b) == Sanitize(a) + Sanitize(b)
  {
    if a == [] {
      assert a + b == b;
    } else {
      assert (a + b)[0] == a[0];
      assert (a + b)[1..] == a[1..] + b;
      SanitizeConcat(a[1..], b);
    }
  }

  /** Cleaning clean arguments changes nothing. */
  lemma {:induction false} SanitizeIdempotent(args: seq<Entry>)
    ensures Sanitize(Sanitize(args)) == Sanitize(args)
  {
    if args != [] {
      SanitizeIdempotent(args[1..]);
      var head := if Kept(args[0]) then [args[0]] else [];
      SanitizeConcat(head, Sanitize(args[1..]));
    }
  }

  /** `{"inputSchema": {...}, "userId": 5, "region": null}` is cleaned down to `{"userId": 5}`. */
  lemma SanitizeExample(schema: seq<Entry>)
    ensures Sanitize([Entry("inputSchema", Object(schema)), Entry("userId", Int(5)), Entry("region", Null)])
            == [Entry("userId", Int(5))]
  {
    var args := [Entry("inputSchema", Object(schema)), Entry("userId", Int(5)), Entry("region", Null)];
    assert Sanitize(args[2..]) == [] by { assert args[2..][1..] == []; }
    assert Sanitize(args[1..]) == [args[1]] by { assert args[1..][1..] == args[2..]; }
  }
}
