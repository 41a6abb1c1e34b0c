/** The service layer of ai_services.py: the API-key check, the extraction of the
    answer from an OpenRouter response body, and the two process-wide singletons
    (the HTTP session and the FastMCP client) with their set-up and tear-down. The
    HTTP request and the MCP transport are oracles passed in as parameters. */
module AiServices {
  import opened Wrappers
  import opened Json
  import opened Text
  import opened Conversation

  // ---------------------------------------------------------------------------
  // _validate_and_get_key

  const KeyMissing: string := "OPENROUTER_API_KEY missing"
  const KeyNotAscii: string := "OPENROUTER_API_KEY contains non-ASCII characters"

  predicate IsAscii(s: string) {
    forall i :: 0 <= i < |s| ==> s[i] as int <= 127
  }

  /** The configured key, trimmed, or the text of the RuntimeError raised for it. */
  function ValidateKey(raw: string): (r: Result<string, string>)
    ensures r.Ok? ==> r.value == Strip(raw) && r.value != "" && IsAscii(r.value)
    ensures r == Err(KeyMissing) <==> AllSpace(raw)
    ensures r == Err(KeyNotAscii) <==> !AllSpace(raw) && !IsAscii(Strip(raw))
  {
    var key := Strip(raw);
    if key == "" then Err(KeyMissing)
    else if exists i :: 0 <= i < |key| && key[i] as int > 127 then Err(KeyNotAscii)
    else Ok(key)
  }

  /** An accepted key is accepted again unchanged: validation is a normalisation. */
  lemma ValidateKeyIdempotent(raw: string)
    requires ValidateKey(raw).Ok?
    ensures ValidateKey(ValidateKey(raw).value) == ValidateKey(raw)
  {
    StripOfTrimmed(ValidateKey(raw).value);
  }

  // ---------------------------------------------------------------------------
  // The HTTP session

  /** The parts of the `requests.Session` the agent configures: its three headers. */
  datatype Session = Session(authorization: string, referer: string, title: string)

  /** `_build_session`: the headers, or the key error that stops the build. */
  function BuildSession(rawKey: string, siteUrl: string, siteName: string): (r: Result<Session, string>)
    ensures r.Ok? <==> ValidateKey(rawKey).Ok?
    ensures r.Ok? ==> r.value.authorization == "Bearer " + Strip(rawKey)
                      && r.value.referer == siteUrl && r.value.title == siteName
    ensures r.Err? ==> r.error == ValidateKey(rawKey).error
  {
    match ValidateKey(rawKey)
    case Err(e) => Err(e)
    case Ok(key) => Ok(Session("Bearer " + key, siteUrl, siteName))
  }

  const NotInitialized: string := "AI service not initialized. Call setup_ai_service() first."
  const ChoicesMissing: string := "Missing 'choices' in AI response"
  const ContentMissing: string := "AI response 'content' missing"

  /** The model every request names. */
  const ModelName: string := "deepseek/deepseek-chat-v3.1:free"

  /** `v` reads as the chat message `{"role": role, "content": content}`. */
  predicate ChatMessage(v: Value, role: string, content: string) {
    v.Object? && Get(v.entries, "role") == Some(Str(role)) && Get(v.entries, "content") == Some(Str(content))
  }

  /** The request body `get_ai_completion` posts for one user message: the fixed model,
      and a conversation of exactly the system prompt followed by the user's text. */
  function RequestBody(userMessage: string): (r: Value)
    ensures r.Object? && Get(r.entries, "model") == Some(Str(ModelName))
    ensures Get(r.entries, "messages").Some? && Get(r.entries, "messages").value.Array?
    ensures var ms := Get(r.entries, "messages").value.items;
            |ms| == 2 && ChatMessage(ms[0], "system", SystemPrompt) && ChatMessage(ms[1], "user", userMessage)
  {
    Object([
      Entry("model", Str(ModelName)),
      Entry("messages", Array([
        Object([Entry("role", Str("system")), Entry("content", Str(SystemPrompt))]),
        Object([Entry("role", Str("user")), Entry("content", Str(userMessage))])]))])
  }

  /** `x.get(k)` on a decoded value: the AttributeError text when `x` is not a dict. */
  function GetAttr(x: Value, k: string): (r: Result<Option<Value>, string>)
    ensures r.Ok? <==> x.Object?
    ensures r.Ok? ==> r.value == Get(x.entries, k)
    ensures r.Err? ==> r.error == NoGet(x)
  {
    if x.Object? then Ok(Get(x.entries, k))
    else Err(NoGet(x))
  }

  /** `choices[0]`, for a dict body whose `choices` is a non-empty list. */
  function FirstChoice(data: Value): Option<Value> {
    if data.Object? && Get(data.entries, "choices").Some? && Get(data.entries, "choices").value.Array?
       && Get(data.entries, "choices").value.items != []
    then Some(Get(data.entries, "choices").value.items[0])
    else None
  }

  /** `first.get("message", {})` on a dict. */
  function MessageOf(first: Value): Value
    requires first.Object?
  {
    match Get(first.entries, "message")
    case None => Object([])
    case Some(m) => m
  }

  /** The content of the first choice of a response body, or the text of what is
      raised: a non-dict body, a missing, empty or non-list `choices`, a first choice or
      `message` that is not a dict, or a missing or null `content`. */
  function ExtractContent(data: Value): (r: Result<Value, string>)
    ensures r.Ok? ==> r.value != Null
    ensures !data.Object? ==> r == Err(NoGet(data))
    ensures (data.Object? && (Get(data.entries, "choices").None? || !Truthy(Get(data.entries, "choices").value)
                              || !Get(data.entries, "choices").value.Array?)) ==> r == Err(ChoicesMissing)
    ensures r.Ok? ==> FirstChoice(data).Some?
    ensures FirstChoice(data).Some? && !FirstChoice(data).value.Object? ==> r == Err(NoGet(FirstChoice(data).value))
    ensures FirstChoice(data).Some? && FirstChoice(data).value.Object? ==>
              var m := MessageOf(FirstChoice(data).value);
              (!m.Object? ==> r == Err(NoGet(m)))
              && (m.Object? ==> (r.Ok? <==> Get(m.entries, "content").Some? && Get(m.entries, "content").value != Null))
              && (m.Object? && r.Ok? ==> Get(m.entries, "content") == Some(r.value))
              && (m.Object? && r.Err? ==> r == Err(ContentMissing))
  {
    match GetAttr(data, "choices")
    case Err(e) => Err(e)
    case Ok(choices) =>
      if choices.None? || !Truthy(choices.value) || !choices.value.Array? then Err(ChoicesMissing)
      else
        match GetAttr(choices.value.items[0], "message")
        case Err(e) => Err(e)
        case Ok(message) =>
          var m := if message.Some? then message.value else Object([]);
          match GetAttr(m, "content")
          case Err(e) => Err(e)
          case Ok(content) =>
            if content.None? || content.value == Null then Err(ContentMissing) else Ok(content.value)
  }

  /** The body OpenRouter sends for one answer, with any further choices after the first. */
  function ResponseWith(content: Value, others: seq<Value>): Value {
    Object([Entry("choices", Array([Object([Entry("message", Object([Entry("role", Str("assistant")), Entry("content", content)]))])] + others))])
  }

  /** Extraction reads back the content the first choice of a well-formed response
      carries, whatever follows it; a null content is refused. */
  lemma ExtractResponseWith(content: Value, others: seq<Value>)
    ensures content != Null ==> ExtractContent(ResponseWith(content, others)) == Ok(content)
    ensures content == Null ==> ExtractContent(ResponseWith(content, others)) == Err(ContentMissing)
  {
    var message := Object([Entry("role", Str("assistant")), Entry("content", content)]);
    var first := Object([Entry("message", message)]);
    var choices := Array([first] + others);
    assert Get([Entry("choices", choices)], "choices") == Some(choices);
    assert choices.items[0] == first;
    assert Get(first.entries, "message") == Some(message);
    assert Get(message.entries, "content") == Some(content);
  }

  /** A first choice without a `message` reads as `{}`, so its content is missing. */
  lemma ExtractWithoutMessage(rest: seq<Value>)
    ensures ExtractContent(Object([Entry("choices", Array([Object([])] + rest))])) == Err(ContentMissing)
  {
    var choices := Array([Object([])] + rest);
    assert Get([Entry("choices", choices)], "choices") == Some(choices);
    assert choices.items[0] == Object([]);
  }

  /** The HTTP round trip: the decoded response body, or the text of the request
      error, the status error or the body decoding error. */
  type Poster = (Session, Value) -> Result<Value, string>

  /** An MCP client connected to one URL. */
  datatype McpClient = McpClient(url: string)

  const McpNotInitialized: string := "FastMCP client not initialized. Call setup_mcp_client() first."

  /** The default FastMCP endpoint. */
  const DefaultMcpUrl: string := "https://brixta-mycoco-mcp.fastmcp.app/mcp"

  /** The remote call of a connected client: a result or the text of what it raises. */
  type McpCall = (McpClient, string, seq<Entry>) -> Result<Value, string>

  /** The module's two globals, `_session` and `_mcp_client`. */
  class Services {
    var session: Option<Session>
    var mcpClient: Option<McpClient>

    constructor ()
      ensures session == None && mcpClient == None
    {
      session := None;
      mcpClient := None;
    }

    /** `setup_ai_service`: builds the session only when none exists; a failed build
        leaves it unset. */
    method SetupAiService(rawKey: string, siteUrl: string, siteName: string) returns (r: Result<Session, string>)
      modifies this`session
      ensures old(session).Some? ==> r == Ok(old(session).value) && session == old(session)
      ensures old(session).None? ==> r == BuildSession(rawKey, siteUrl, siteName)
                                     && session == (if r.Ok? then Some(r.value) else None)
    {
      if session.None? {
        var built := BuildSession(rawKey, siteUrl, siteName);
        if built.Err? {
          return Err(built.error);
        }
        session := Some(built.value);
      }
      return Ok(session.value);
    }

    /** `get_ai_completion`: refused before set-up; otherwise the posted request's
        response goes through `ExtractContent`, and every error propagates. */
    method GetAiCompletion(userMessage: string, post: Poster) returns (r: Result<Value, string>)
      ensures session.None? ==> r == Err(NotInitialized)
      ensures session.Some? ==>
                var resp := post(session.value, RequestBody(userMessage));
                r == if resp.Err? then Err(resp.error) else ExtractContent(resp.value)
    {
      if session.None? {
        return Err(NotInitialized);
      }
      var resp := post(session.value, RequestBody(userMessage));
      if resp.Err? {
        return Err(resp.error);
      }
      r := ExtractContent(resp.value);
    }

    /** `setup_mcp_client`: an existing client is returned as is; otherwise one is
        connected to the given URL (the default when none or empty is given) and kept,
        unless entering it raises. */
    method SetupMcpClient(mcpUrl: Option<string>, enter: string -> Option<string>) returns (r: Result<McpClient, string>)
      modifies this`mcpClient
      ensures old(mcpClient).Some? ==> r == Ok(old(mcpClient).value) && mcpClient == old(mcpClient)
      ensures old(mcpClient).None? ==>
                var url := if mcpUrl.Some? && mcpUrl.value != "" then mcpUrl.value else DefaultMcpUrl;
                if enter(url).Some? then r == Err(enter(url).value) && mcpClient == None
                else r == Ok(McpClient(url)) && mcpClient == Some(McpClient(url))
    {
      var url := if mcpUrl.Some? && mcpUrl.value != "" then mcpUrl.value else DefaultMcpUrl;
      if mcpClient.Some? {
        return Ok(mcpClient.value);
      }
      var failure := enter(url);
      if failure.Some? {
        return Err(failure.value);
      }
      mcpClient := Some(McpClient(url));
      return Ok(mcpClient.value);
    }

    /** `close_mcp_client`: the client is always dropped, even when leaving it raises;
        the exception (if any) propagates. */
    method CloseMcpClient(exit: McpClient -> Option<string>) returns (raised: Option<string>)
      modifies this`mcpClient
      ensures mcpClient == None
      ensures raised == if old(mcpClient).Some? then exit(old(mcpClient).value) else None
    {
      if mcpClient.None? {
        return None;
      }
      raised := exit(mcpClient.value);
      mcpClient := None;
    }

    /** `_ensure_mcp` */
    method EnsureMcp() returns (r: Result<McpClient, string>)
      ensures r.Ok? <==> mcpClient.Some?
      ensures r.Ok? ==> r.value == mcpClient.value
      ensures r.Err? ==> r.error == McpNotInitialized
    {
      if mcpClient.None? {
        return Err(McpNotInitialized);
      }
      return Ok(mcpClient.value);
    }

    /** `mcp_call_tool`: the call goes through the connected client, or fails. */
    method McpCallTool(name: string, params: seq<Entry>, call: McpCall) returns (r: Result<Value, string>)
      ensures mcpClient.None? ==> r == Err(McpNotInitialized)
      ensures mcpClient.Some? ==> r == call(mcpClient.value, name, params)
    {
      var client := EnsureMcp();
      if client.Err? {
        return Err(client.error);
      }
      r := call(client.value, name, params);
    }
  }

  /** Setting up twice builds one session: the second call returns the first's. */
  method SetupAiServiceTwice(s: Services, rawKey: string, siteUrl: string, siteName: string)
    returns (first: Result<Session, string>, second: Result<Session, string>)
    modifies s`session
    ensures first.Ok? ==> second == first && s.session == Some(first.value)
  {
    first := s.SetupAiService(rawKey, siteUrl, siteName);
    second := s.SetupAiService(rawKey, siteUrl, siteName);
  }

  /** Connecting twice yields one client, whatever URL the second call names. */
  method SetupMcpClientTwice(s: Services, url1: Option<string>, url2: Option<string>, enter: string -> Option<string>)
    returns (first: Result<McpClient, string>, second: Result<McpClient, string>)
    modifies s`mcpClient
    ensures first.Ok? ==> second == first && s.mcpClient == Some(first.value)
  {
    first := s.SetupMcpClient(url1, enter);
    second := s.SetupMcpClient(url2, enter);
  }

  /** After closing, every MCP operation is refused until the next set-up. */
  method CloseThenCall(s: Services, exit: McpClient -> Option<string>, name: string, params: seq<Entry>, call: McpCall)
    returns (r: Result<Value, string>)
    modifies s`mcpClient
    ensures r == Err(McpNotInitialized)
  {
    var _ := s.CloseMcpClient(exit);
    r := s.McpCallTool(name, params, call);
  }
}
