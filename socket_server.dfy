/** The Socket.IO front end of flask_socket_server.py: the CORS origin list read from
    the environment, the table of per-connection user states, the cached tool list,
    the two event handlers that run a chat turn or a staged write for a connection,
    and the guard against starting the server twice. Emitting events is modelled as
    the value a handler returns. */
module SocketServer {
  import opened Wrappers
  import opened Json
  import opened Text
  import opened Conversation
  import opened RoundTrip
  import opened PostHandler
  import opened ChatService

  // ---------------------------------------------------------------------------
  // _ALLOWED_ORIGINS

  /** `[o.strip() for o in pieces if o.strip()]` */
  function Origins(pieces: seq<string>): (r: seq<string>)
    ensures |r| <= |pieces|
    ensures forall i :: 0 <= i < |r| ==> Trimmed(r[i])
  {
    if pieces == [] then []
    else
      var rest := Origins(pieces[1..]);
      if Strip(pieces[0]) == [] then rest
      else
        ConsTrimmed(Strip(pieces[0]), rest);
        [Strip(pieces[0])] + rest
  }

  lemma ConsTrimmed(o: string, rest: seq<string>)
    requires Trimmed(o)
    requires forall i :: 0 <= i < |rest| ==> Trimmed(rest[i])
    ensures forall i :: 0 <= i < |[o] + rest| ==> Trimmed(([o] + rest)[i])
  {
    assert forall i :: 1 <= i < |[o] + rest| ==> ([o] + rest)[i] == rest[i - 1];
  }

  /** Pieces that are already trimmed pass through unchanged. */
  lemma {:induction false} OriginsOfTrimmed(os: seq<string>)
    requires forall i :: 0 <= i < |os| ==> Trimmed(os[i])
    ensures Origins(os) == os
  {
    if os != [] {
      StripOfTrimmed(os[0]);
      OriginsOfTrimmed(os[1..]);
      assert os == [os[0]] + os[1..];
    }
  }

  /** Every origin is the trimmed text of some piece. */
  lemma {:induction false} OriginsSource(pieces: seq<string>, j: nat) returns (i: nat)
    requires j < |Origins(pieces)|
    ensures i < |pieces| && Origins(pieces)[j] == Strip(pieces[i])
  {
    var rest := Origins(pieces[1..]);
    if Strip(pieces[0]) == "" {
      i := OriginsSource(pieces[1..], j);
      i := i + 1;
    } else if j == 0 {
      i := 0;
    } else {
      i := OriginsSource(pieces[1..], j - 1);
      i := i + 1;
    }
  }

  /** Every non-blank piece contributes its trimmed text, at the returned position. */
  lemma {:induction false} OriginsKeep(pieces: seq<string>, i: nat) returns (j: nat)
    requires i < |pieces| && !AllSpace(pieces[i])
    ensures j < |Origins(pieces)| && Origins(pieces)[j] == Strip(pieces[i])
  {
    var o := Strip(pieces[0]);
    var rest := Origins(pieces[1..]);
    OriginsUnfold(pieces);
    if i == 0 {
      assert o != [];
      ConsIndex(o, rest);
      j := 0;
    } else {
      assert pieces[1..][i - 1] == pieces[i];
      j := OriginsKeep(pieces[1..], i - 1);
      if o != [] {
        ConsIndex(o, rest);
        j := j + 1;
      }
    }
  }

  lemma OriginsUnfold(pieces: seq<string>)
    requires pieces != []
    ensures Strip(pieces[0]) == [] ==> Origins(pieces) == Origins(pieces[1..])
    ensures Strip(pieces[0]) != [] ==> Origins(pieces) == [Strip(pieces[0])] + Origins(pieces[1..])
  {
  }

  lemma ConsIndex(o: string, rest: seq<string>)
    ensures ([o] + rest)[0] == o
    ensures forall j :: 0 <= j < |rest| ==> ([o] + rest)[j + 1] == rest[j]
  {
  }

  predicate AllBlank(pieces: seq<string>) {
    forall i :: 0 <= i < |pieces| ==> AllSpace(pieces[i])
  }

  /** No origin survives exactly when every piece is blank. */
  lemma {:induction false} OriginsEmpty(pieces: seq<string>)
    ensures Origins(pieces) == [] <==> AllBlank(pieces)
  {
    if pieces != [] {
      OriginsEmpty(pieces[1..]);
      assert forall i :: 1 <= i < |pieces| ==> pieces[i] == pieces[1..][i - 1];
    }
  }

  /** The origins allowed by the `SOCKETIO_CORS` setting (a comma-separated list). */
  function AllowedOrigins(setting: string): (r: seq<string>)
    ensures forall i :: 0 <= i < |r| ==> Trimmed(r[i]) && ',' !in r[i]
    ensures r == [] <==> AllBlank(Split(setting, ','))
  {
    var pieces := Split(setting, ',');
    OriginsEmpty(pieces);
    forall j | 0 <= j < |Origins(pieces)| ensures ',' !in Origins(pieces)[j] {
      var i := OriginsSource(pieces, j);
    }
    Origins(pieces)
  }

  /** Writing a list of clean origins into the setting reads the same list back. */
  lemma AllowedOriginsOfJoin(os: seq<string>)
    requires |os| >= 1
    requires forall i :: 0 <= i < |os| ==> Trimmed(os[i]) && ',' !in os[i]
    ensures AllowedOrigins(Join(os, ',')) == os
  {
    SplitJoin(os, ',');
    OriginsOfTrimmed(os);
  }

  const NoOrigins: string := "SOCKETIO_CORS is empty. Set it to http://localhost:3000 for dev."

  /** The module-level check: an empty origin list stops the server from loading. */
  function CheckedOrigins(setting: string): (r: Result<seq<string>, string>)
    ensures r.Ok? ==> r.value == AllowedOrigins(setting) && r.value != []
    ensures r.Err? ==> r.error == NoOrigins
    ensures r.Err? <==> AllBlank(Split(setting, ','))
  {
    OriginsEmpty(Split(setting, ','));
    if AllowedOrigins(setting) == [] then Err(NoOrigins) else Ok(AllowedOrigins(setting))
  }

  // ---------------------------------------------------------------------------
  // Events

  const EmptyText: string := "empty text"

  /** What a handler sends back to its connection: an `error` event, a `message`
      event (with the `awaiting` flag on chat turns), or, as a modelling artifact, a
      turn that ran out of fuel. */
  datatype Event = Error(message: string) | Message(text: string, awaiting: Option<bool>) | Unfinished

  /** `(data or {}).get("text", "")` followed by the type and blankness guard: the text
      to handle, `None` when the guard rejects it, or the AttributeError raised on a
      truthy payload that is not a dict. */
  function IncomingText(data: Value): (r: Result<Option<string>, string>)
    ensures r.Err? <==> Truthy(data) && !data.Object?
    ensures r.Err? ==> r.error == NoGet(data)
    ensures r.Ok? && r.value.Some? ==> r.value.value != "" && !AllSpace(r.value.value)
    ensures r.Ok? && r.value.Some? ==> data.Object? && Get(data.entries, "text") == Some(Str(r.value.value))
    ensures var field := if data.Object? then Get(data.entries, "text") else None;
            field.Some? && field.value.Str? && !AllSpace(field.value.s) ==> r == Ok(Some(field.value.s))
  {
    if Truthy(data) && !data.Object? then Err(NoGet(data))
    else
      var field := if data.Object? && Get(data.entries, "text").Some? then Get(data.entries, "text").value else Str("");
      if field.Str? && !AllSpace(field.s) then Ok(Some(field.s)) else Ok(None)
  }

  /** The event a finished chat turn emits. */
  function TurnEvent(outcome: Outcome): (e: Event)
    ensures outcome.Answer? ==> e == Message(outcome.display, Some(outcome.awaiting))
    ensures outcome.Failed? ==> e == Error("server error: " + outcome.error)
    ensures outcome.Exhausted? <==> e.Unfinished?
  {
    match outcome
    case Answer(display, awaiting) => Message(display, Some(awaiting))
    case Failed(error) => Error("server error: " + error)
    case Exhausted => Unfinished
  }

  /** The process-wide globals: `CLIENT_STATES`, `TOOLS_CACHE` and `_SERVER_STARTED`. */
  class Server {
    var clients: map<string, UserState>
    var toolsCache: seq<Value>
    var started: bool

    ghost predicate Valid()
      reads this, clients.Values
    {
      forall s :: s in clients.Values ==> s.Valid()
    }

    constructor ()
      ensures Valid() && clients == map[] && toolsCache == [] && !started
    {
      clients := map[];
      toolsCache := [];
      started := false;
    }

    /** `set_tools_cache`: `tools or []`. */
    method SetToolsCache(tools: Option<seq<Value>>)
      modifies this`toolsCache
      ensures toolsCache == ToolsOf(tools)
      ensures tools.None? ==> toolsCache == []
    {
      toolsCache := ToolsOf(tools);
    }

    /** `on_connect`: a fresh state with the system prompt and the current tool cache,
        replacing whatever the table held for this connection. */
    method Connect(sid: string)
      requires Valid()
      modifies this`clients
      ensures Valid()
      ensures sid in clients && fresh(clients[sid])
      ensures clients == old(clients)[sid := clients[sid]]
      ensures clients[sid].messages == Some([System(SystemPrompt)]) && clients[sid].tools == Some(toolsCache)
      ensures clients[sid].pendingPayload == None && clients[sid].pendingToolName == None
    {
      var s := new UserState(Some([System(SystemPrompt)]), Some(toolsCache));
      clients := clients[sid := s];
    }

    /** `on_disconnect`: `pop(sid, None)`, so an unknown connection is no error. */
    method Disconnect(sid: string)
      requires Valid()
      modifies this`clients
      ensures Valid()
      ensures clients == old(clients) - {sid}
      ensures sid !in old(clients) ==> clients == old(clients)
    {
      clients := clients - {sid};
    }

    /** `CLIENT_STATES.setdefault(sid, ...)`: an existing state is kept as it is; a
        missing one is seeded like a new connection. */
    method StateFor(sid: string) returns (s: UserState)
      requires Valid()
      modifies this`clients
      ensures Valid() && s.Valid()
      ensures sid in clients && clients[sid] == s
      ensures sid in old(clients) ==> s == old(clients)[sid] && clients == old(clients)
      ensures sid !in old(clients) ==>
                fresh(s) && clients == old(clients)[sid := s]
                && s.messages == Some([System(SystemPrompt)]) && s.tools == Some(toolsCache)
                && s.pendingPayload == None && s.pendingToolName == None
    {
      if sid in clients {
        return clients[sid];
      }
      s := new UserState(Some([System(SystemPrompt)]), Some(toolsCache));
      clients := clients[sid := s];
    }

    /** `on_send_message`: rejected text never reaches the table or the engine;
        accepted text, trimmed, runs one chat turn on the connection's state, and any
        exception of the turn becomes a `server error` event. The result is the AttributeError
        when the payload itself cannot be read. Only this connection's state can change. */
    method OnSendMessage(sid: string, data: Value, env: Env, fuel: nat) returns (r: Result<Event, string>)
      requires Valid()
      modifies this`clients, if sid in clients then {clients[sid]} else {}
      ensures Valid()
      ensures IncomingText(data).Err? ==> r == Err(IncomingText(data).error) && clients == old(clients)
      ensures IncomingText(data) == Ok(None) ==> r == Ok(Error(EmptyText)) && clients == old(clients)
      ensures IncomingText(data).Ok? && IncomingText(data).value.Some? ==>
                var text := Strip(IncomingText(data).value.value);
                var known := sid in old(clients);
                var messages := if known then old(clients[sid].messages) else Some([System(SystemPrompt)]);
                var tools := if known then old(clients[sid].tools) else Some(toolsCache);
                var payload := if known then old(clients[sid].pendingPayload) else None;
                var toolName := if known then old(clients[sid].pendingToolName) else None;
                var end := RunRounds(Seeded(messages, text), ToolsOf(tools), env.complete, ChatStep(env), fuel);
                var staged := end.Final? && Stage(FinalText(end.reply), env.parse).Staged?;
                sid in clients
                && (known ==> clients == old(clients))
                && (!known ==> clients == old(clients)[sid := clients[sid]])
                && r == Ok(TurnEvent(TurnOutcome(end, env.parse)))
                && clients[sid].messages == Some(end.history) && clients[sid].tools == tools
                && (staged ==> clients[sid].pendingPayload == Some(Stage(FinalText(end.reply), env.parse).payload)
                               && clients[sid].pendingToolName == Some(Stage(FinalText(end.reply), env.parse).toolName))
                && (!staged ==> clients[sid].pendingPayload == payload && clients[sid].pendingToolName == toolName)
    {
      var incoming := IncomingText(data);
      if incoming.Err? {
        return Err(incoming.error);
      }
      if incoming.value.None? {
        return Ok(Error(EmptyText));
      }
      var s := StateFor(sid);
      var outcome := Handle(s, Strip(incoming.value.value), env, fuel);
      assert forall t :: t in clients.Values && t != s ==> t.Valid();
      return Ok(TurnEvent(outcome));
    }

    /** `on_confirm_post`: the connection's staged write, if any, runs; the reply is its
        report or "Nothing to submit.". The history and tools of the connection stay as
        they were, and no other connection's state changes. */
    method OnConfirmPost(sid: string, callTool: WriteGateway, pretty: Printer) returns (e: Event)
      requires Valid()
      modifies this`clients, if sid in clients then {clients[sid]} else {}
      ensures Valid()
      ensures sid in clients && clients[sid].pendingPayload == None && clients[sid].pendingToolName == None
      ensures sid in old(clients) ==> clients == old(clients)
      ensures sid in old(clients) ==>
                clients[sid].messages == old(clients[sid].messages) && clients[sid].tools == old(clients[sid].tools)
      ensures sid !in old(clients) ==>
                clients == old(clients)[sid := clients[sid]]
                && clients[sid].messages == Some([System(SystemPrompt)]) && clients[sid].tools == Some(toolsCache)
      ensures sid !in old(clients) ==> e == Message(NothingToSubmit, None)
      ensures sid in old(clients) ==>
                var x := Execution(old(clients[sid].pendingPayload), old(clients[sid].pendingToolName), callTool, pretty);
                e == Message(if x.0 then x.1 else NothingToSubmit, None)
    {
      var s := StateFor(sid);
      var text := ConfirmPost(s, callTool, pretty);
      assert forall t :: t in clients.Values && t != s ==> t.Valid();
      return Message(text, None);
    }

    /** `start_socketio_server`: only the first call binds the server. */
    method Start() returns (binds: bool)
      modifies this`started
      ensures started
      ensures binds <==> !old(started)
    {
      if started {
        return false;
      }
      started := true;
      return true;
    }
  }

  /** A second start is a no-op. */
  method StartTwice(server: Server) returns (first: bool, second: bool)
    modifies server`started
    ensures !second && server.started
    ensures first <==> !old(server.started)
  {
    first := server.Start();
    second := server.Start();
  }

  /** A message sent after disconnecting lands in a fresh state seeded with the system
      prompt, not in the dropped history. */
  method SendAfterDisconnect(server: Server, sid: string, data: Value, env: Env, fuel: nat)
    returns (r: Result<Event, string>)
    requires server.Valid()
    modifies server`clients, server.clients.Values
    ensures IncomingText(data).Ok? && IncomingText(data).value.Some? ==>
              r == Ok(TurnEvent(TurnOutcome(RunRounds(Seeded(Some([System(SystemPrompt)]), Strip(IncomingText(data).value.value)),
                                                      old(server.toolsCache), env.complete, ChatStep(env), fuel), env.parse)))
  {
    server.Disconnect(sid);
    r := server.OnSendMessage(sid, data, env, fuel);
  }
}
