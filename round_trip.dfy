/** The tool-call round-trip loop that chat_service.py and telegram_bot.py both run:
    ask the provider, append its message, stop at the first message without tool
    calls, otherwise answer every requested call in order with one `tool` message
    and ask again. The two engines differ only in how one call is answered (their
    `Step`) and in what they do with the final message.

    The source loops with `while True`; here every round costs one unit of `fuel`,
    and `OutOfFuel` marks a run the source would still be looping in. */
module RoundTrip {
  import opened Wrappers
  import opened Json
  import opened Conversation

  /** How an engine answers one tool call, given the history so far: the content of
      its `tool` message, or an exception that escapes the whole turn. */
  type Step = (seq<Message>, ToolCall) -> Result<string, string>

  datatype CallsEnd = CallsEnd(history: seq<Message>, raised: Option<string>)

  /** The `for` loop over one round's calls, in the order the provider listed them. */
  function RunCalls(h: seq<Message>, calls: seq<ToolCall>, step: Step): (r: CallsEnd)
    ensures |h| <= |r.history| <= |h| + |calls| && r.history[..|h|] == h
    ensures forall k :: |h| <= k < |r.history| ==>
              r.history[k].Tool? && r.history[k].toolCallId == calls[k - |h|].id
    ensures r.raised.None? <==> |r.history| == |h| + |calls|
    decreases |calls|
  {
    if calls == [] then CallsEnd(h, None)
    else
      var prev := RunCalls(h, calls[..|calls| - 1], step);
      if prev.raised.Some? then prev
      else
        var call := calls[|calls| - 1];
        match step(prev.history, call)
        case Err(e) => CallsEnd(prev.history, Some(e))
        case Ok(content) => CallsEnd(prev.history + [Tool(call.id, content)], None)
  }

  /** What each `tool` message says: the step's answer for its call, given the history
      before it; and a raised round ends on the call whose step raised. */
  lemma {:induction false} RunCallsContents(h: seq<Message>, calls: seq<ToolCall>, step: Step)
    ensures var r := RunCalls(h, calls, step);
            forall k :: |h| <= k < |r.history| ==>
              step(r.history[..k], calls[k - |h|]) == Ok(r.history[k].content)
    ensures var r := RunCalls(h, calls, step);
            r.raised.Some? ==> step(r.history, calls[|r.history| - |h|]) == Err(r.raised.value)
    decreases |calls|
  {
    if calls != [] {
      var shorter := calls[..|calls| - 1];
      var prev := RunCalls(h, shorter, step);
      RunCallsContents(h, shorter, step);
      var r := RunCalls(h, calls, step);
      if prev.raised.None? {
        forall k | |h| <= k < |prev.history|
          ensures step(r.history[..k], calls[k - |h|]) == Ok(r.history[k].content)
        {
          assert r.history[..k] == prev.history[..k];
          assert calls[k - |h|] == shorter[k - |h|];
        }
        assert r.history[..|prev.history|] == prev.history;
      } else {
        assert calls[|r.history| - |h|] == shorter[|r.history| - |h|];
      }
    }
  }

  /** Once a call has raised, the later calls of the round are never run. */
  lemma {:induction false} RunCallsRaisedStops(h: seq<Message>, calls: seq<ToolCall>, i: nat, step: Step)
    requires i <= |calls|
    requires RunCalls(h, calls[..i], step).raised.Some?
    ensures RunCalls(h, calls, step) == RunCalls(h, calls[..i], step)
    decreases |calls| - i
  {
    if i < |calls| {
      var shorter := calls[..|calls| - 1];
      assert shorter[..i] == calls[..i];
      RunCallsRaisedStops(h, shorter, i, step);
    } else {
      assert calls[..i] == calls;
    }
  }

  /** A step that always answers lets the whole round run: one `tool` message per call. */
  lemma {:induction false} RunCallsTotal(h: seq<Message>, calls: seq<ToolCall>, step: Step)
    requires forall k, h' :: 0 <= k < |calls| ==> step(h', calls[k]).Ok?
    ensures RunCalls(h, calls, step).raised.None?
    ensures |RunCalls(h, calls, step).history| == |h| + |calls|
    decreases |calls|
  {
    if calls != [] {
      var shorter := calls[..|calls| - 1];
      forall k, h' | 0 <= k < |shorter| ensures step(h', shorter[k]).Ok? {
        assert shorter[k] == calls[k];
      }
      RunCallsTotal(h, shorter, step);
    }
  }

  datatype LoopEnd =
    | Final(history: seq<Message>, reply: Completion)
    | NoCompletion(history: seq<Message>)
    | Raised(history: seq<Message>, error: string)
    | OutOfFuel(history: seq<Message>)

  /** The `while True` loop, from a history that already ends with the user's message.
      An exception of the provider or of a step ends the loop as `Raised`. */
  function RunRounds(h: seq<Message>, tools: seq<Value>, complete: Provider, step: Step, fuel: nat): (r: LoopEnd)
    ensures |h| <= |r.history|
    ensures r.Final? ==> r.reply.toolCalls == [] && |r.history| > |h|
    ensures fuel == 0 <==> r == OutOfFuel(h)
    decreases fuel
  {
    if fuel == 0 then OutOfFuel(h)
    else
      match complete(h, tools)
      case Err(e) => Raised(h, e)
      case Ok(None) => NoCompletion(h)
      case Ok(Some(c)) =>
        var h1 := h + [Assistant(c)];
        if c.toolCalls == [] then Final(h1, c)
        else
          var calls := RunCalls(h1, c.toolCalls, step);
          if calls.raised.Some? then Raised(calls.history, calls.raised.value)
          else RunRounds(calls.history, tools, complete, step, fuel - 1)
  }

  /** The history only ever grows at its end, and a final answer is the last message. */
  lemma {:induction false} RunRoundsExtends(h: seq<Message>, tools: seq<Value>, complete: Provider, step: Step, fuel: nat)
    ensures var r := RunRounds(h, tools, complete, step, fuel);
            |h| <= |r.history| && r.history[..|h|] == h
            && (r.Final? ==> |r.history| > 0 && r.history[|r.history| - 1] == Assistant(r.reply) && r.reply.toolCalls == [])
    decreases fuel
  {
    if fuel > 0 && complete(h, tools).Ok? && complete(h, tools).value.Some? {
      var c := complete(h, tools).value.value;
      var h1 := h + [Assistant(c)];
      if c.toolCalls != [] {
        var calls := RunCalls(h1, c.toolCalls, step);
        if calls.raised.None? {
          RunRoundsExtends(calls.history, tools, complete, step, fuel - 1);
          var r := RunRounds(calls.history, tools, complete, step, fuel - 1);
          assert r.history[..|h|] == r.history[..|calls.history|][..|h|];
          assert calls.history[..|h|] == calls.history[..|h1|][..|h|];
        }
      }
    }
  }

  /** The `tool` message at position `k` answers the call at the matching position of
      the assistant message that opens its run of `tool` messages. */
  ghost predicate AnswersCall(h: seq<Message>, k: nat)
    requires k < |h| && h[k].Tool?
  {
    exists a :: 0 <= a < k && h[a].Assistant? && (forall j :: a < j < k ==> h[j].Tool?)
      && k - a - 1 < |h[a].reply.toolCalls|
      && h[k].toolCallId == h[a].reply.toolCalls[k - a - 1].id
  }

  /** Every `tool` message correlates to a call that an earlier assistant message requested. */
  ghost predicate Correlated(h: seq<Message>) {
    forall k :: 0 <= k < |h| && h[k].Tool? ==> AnswersCall(h, k)
  }

  lemma CorrelatedPrefix(h: seq<Message>, h': seq<Message>, k: nat)
    requires k < |h| <= |h'| && h'[..|h|] == h
    requires h[k].Tool? && AnswersCall(h, k)
    ensures AnswersCall(h', k)
  {
    var a :| 0 <= a < k && h[a].Assistant? && (forall j :: a < j < k ==> h[j].Tool?)
      && k - a - 1 < |h[a].reply.toolCalls|
      && h[k].toolCallId == h[a].reply.toolCalls[k - a - 1].id;
    assert h'[a] == h[a] && h'[k] == h[k];
    assert forall j :: a < j < k ==> h'[j] == h[j];
  }

  /** One round keeps the history correlated. */
  lemma RoundCorrelated(h: seq<Message>, c: Completion, step: Step)
    requires Correlated(h)
    ensures Correlated(RunCalls(h + [Assistant(c)], c.toolCalls, step).history)
  {
    var h1 := h + [Assistant(c)];
    var r := RunCalls(h1, c.toolCalls, step).history;
    assert r[..|h|] == h by { assert r[..|h|] == r[..|h1|][..|h|]; }
    forall k | 0 <= k < |r| && r[k].Tool? ensures AnswersCall(r, k) {
      if k < |h| {
        assert h[k] == r[k];
        CorrelatedPrefix(h, r, k);
      } else {
        assert k != |h| by { assert r[|h|] == h1[|h|] == Assistant(c); }
        var a := |h|;
        assert r[a] == Assistant(c);
        assert r[k].toolCallId == c.toolCalls[k - a - 1].id;
      }
    }
  }

  /** Across all rounds of a turn, the engine never fabricates a `tool` message: each one
      carries the id of a call an earlier assistant message requested, the i-th `tool`
      message after an assistant message answering its i-th call. */
  lemma {:induction false} RunRoundsCorrelated(h: seq<Message>, tools: seq<Value>, complete: Provider, step: Step, fuel: nat)
    requires Correlated(h)
    ensures Correlated(RunRounds(h, tools, complete, step, fuel).history)
    decreases fuel
  {
    if fuel > 0 && complete(h, tools).Ok? && complete(h, tools).value.Some? {
      var c := complete(h, tools).value.value;
      var h1 := h + [Assistant(c)];
      if c.toolCalls == [] {
        forall k | 0 <= k < |h1| && h1[k].Tool? ensures AnswersCall(h1, k) {
          CorrelatedPrefix(h, h1, k);
        }
      } else {
        RoundCorrelated(h, c, step);
        var calls := RunCalls(h1, c.toolCalls, step);
        if calls.raised.None? {
          RunRoundsCorrelated(calls.history, tools, complete, step, fuel - 1);
        }
      }
    }
  }
}
