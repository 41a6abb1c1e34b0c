/** Two-turn staged writes (post_handler.py). In the first turn the model's final
    answer may carry a write payload between `[TOOL_ARGS_JSON]` and
    `[/TOOL_ARGS_JSON]`; it is parsed, given a write tool by a fixed field-signature
    rule, stored in the user's state, and the markers are cut from what the user
    sees. In the second turn an exact "Y" pops the stored call and runs it. */
module PostHandler {
  import opened Wrappers
  import opened Json
  import opened Text
  import opened Conversation

  const Opener: string := "[TOOL_ARGS_JSON]"
  const Closer: string := "[/TOOL_ARGS_JSON]"

  const TvrTool: string := "post_tvr_report"
  const DvrTool: string := "post_dvr_report"
  const SalesOrderTool: string := "post_sales_order"
  const WriteTools: set<string> := {TvrTool, DvrTool, SalesOrderTool}

  // ---------------------------------------------------------------------------
  // PAYLOAD_REGEX: \[TOOL_ARGS_JSON\](.*?)\[/TOOL_ARGS_JSON\] with DOTALL

  /** A match: the opener starts at `start`, the captured group ends at `bodyEnd`
      where the closer starts. */
  datatype Block = Block(start: nat, bodyEnd: nat)

  predicate IsBlockAt(s: string, i: nat, j: nat) {
    OccursAt(s, Opener, i) && i + |Opener| <= j && OccursAt(s, Closer, j)
  }

  function Captured(s: string, b: Block): string
    requires b.start + |Opener| <= b.bodyEnd <= |s|
  {
    s[b.start + |Opener|..b.bodyEnd]
  }

  function BlockEnd(b: Block): nat {
    b.bodyEnd + |Closer|
  }

  /** `PAYLOAD_REGEX.search(s, from)`: the leftmost match, whose lazy group stops at the
      first closer after the opener (`.` crosses newlines under DOTALL). */
  function FindBlock(s: string, from: nat): (r: Option<Block>)
    ensures r.Some? ==> from <= r.value.start && r.value.start + |Opener| <= r.value.bodyEnd
                        && BlockEnd(r.value) <= |s|
  {
    match IndexOf(s, Opener, from)
    case None => None
    case Some(i) =>
      match IndexOf(s, Closer, i + |Opener|)
      case None => None
      case Some(j) => Some(Block(i, j))
  }

  /** The match is a real match, the leftmost one, with its group as short as possible,
      and no match is missed. */
  lemma FindBlockLeftmostLazy(s: string, from: nat)
    ensures var r := FindBlock(s, from);
            (r.Some? ==> IsBlockAt(s, r.value.start, r.value.bodyEnd))
            && (r.Some? ==> forall i, j :: from <= i < r.value.start ==> !IsBlockAt(s, i, j))
            && (r.Some? ==> forall j :: r.value.start + |Opener| <= j < r.value.bodyEnd ==> !OccursAt(s, Closer, j))
            && (r.None? ==> forall i, j :: from <= i ==> !IsBlockAt(s, i, j))
  {
    IndexOfFirst(s, Opener, from);
    match IndexOf(s, Opener, from)
    case None =>
    case Some(i) =>
      IndexOfFirst(s, Closer, i + |Opener|);
  }

  /** `PAYLOAD_REGEX.sub('', s)`: every non-overlapping match removed, left to right. */
  function RemoveBlocks(s: string): (r: string)
    ensures |r| <= |s|
    ensures FindBlock(s, 0).Some? ==> |r| < |s|
    ensures FindBlock(s, 0).None? ==> r == s
    decreases |s|
  {
    match FindBlock(s, 0)
    case None => s
    case Some(b) => s[..b.start] + RemoveBlocks(s[BlockEnd(b)..])
  }

  lemma FindBlockAt(s: string, pre: string, body: string)
    requires IndexOf(s, Opener, 0) == Some(|pre|)
    requires IndexOf(s, Closer, |pre| + |Opener|) == Some(|pre| + |Opener| + |body|)
    ensures FindBlock(s, 0) == Some(Block(|pre|, |pre| + |Opener| + |body|))
  {
  }

  /** A block embedded after text that holds no opener, with a body that holds no
      closer, is the block the search finds. */
  lemma EmbeddedBlockFound(pre: string, body: string, post: string)
    requires IndexOf(pre + Opener, Opener, 0) == Some(|pre|)
    requires IndexOf(body + Closer, Closer, 0) == Some(|body|)
    ensures FindBlock(pre + Opener + (body + Closer + post), 0) == Some(Block(|pre|, |pre| + |Opener| + |body|))
  {
    EmbeddedSearch(pre, Opener, body, Closer, post);
    FindBlockAt(pre + Opener + (body + Closer + post), pre, body);
  }

  /** The group of that block is the body. */
  lemma EmbeddedBlockCaptured(pre: string, body: string, post: string)
    ensures Captured(pre + Opener + (body + Closer + post), Block(|pre|, |pre| + |Opener| + |body|)) == body
  {
    var s := pre + Opener + (body + Closer + post);
    assert s[|pre| + |Opener|..|pre| + |Opener| + |body|] == body;
  }

  lemma EmbeddedBlockSlices(pre: string, body: string, post: string)
    ensures var s := pre + Opener + (body + Closer + post);
            var b := Block(|pre|, |pre| + |Opener| + |body|);
            s[..b.start] == pre && s[BlockEnd(b)..] == post
  {
    var s := pre + Opener + (body + Closer + post);
    assert s[..|pre|] == pre;
    assert s[|pre| + |Opener| + |body| + |Closer|..] == post;
  }

  /** Removing a block found after `pre` keeps `pre` and goes on removing blocks in
      what follows the block. */
  lemma EmbeddedBlockRemoved(pre: string, body: string, post: string)
    requires FindBlock(pre + Opener + (body + Closer + post), 0) == Some(Block(|pre|, |pre| + |Opener| + |body|))
    ensures RemoveBlocks(pre + Opener + (body + Closer + post)) == pre + RemoveBlocks(post)
  {
    EmbeddedBlockSlices(pre, body, post);
  }

  /** Text in which the pattern matches nowhere comes back unchanged. */
  lemma RemoveBlocksNoMatch(s: string)
    requires forall i, j :: !IsBlockAt(s, i, j)
    ensures RemoveBlocks(s) == s
  {
    FindBlockLeftmostLazy(s, 0);
  }

  /** The leftmost match, with its group ending at the first closer after the opener,
      is the one the search reports. */
  lemma LeftmostMatchFound(s: string, i: nat, j: nat)
    requires IsBlockAt(s, i, j)
    requires forall i', j' :: 0 <= i' < i ==> !IsBlockAt(s, i', j')
    requires forall j' :: i + |Opener| <= j' < j ==> !OccursAt(s, Closer, j')
    ensures FindBlock(s, 0) == Some(Block(i, j))
  {
    FindBlockLeftmostLazy(s, 0);
  }

  /** `re.sub` in terms of the matches themselves: the leftmost match is removed with
      everything it spans, the text before it is kept, and the substitution goes on
      after it. */
  lemma RemoveBlocksLeftmost(s: string, i: nat, j: nat)
    requires IsBlockAt(s, i, j)
    requires forall i', j' :: 0 <= i' < i ==> !IsBlockAt(s, i', j')
    requires forall j' :: i + |Opener| <= j' < j ==> !OccursAt(s, Closer, j')
    ensures j + |Closer| <= |s|
    ensures RemoveBlocks(s) == s[..i] + RemoveBlocks(s[j + |Closer|..])
  {
    LeftmostMatchFound(s, i, j);
    var b := Block(i, j);
    assert BlockEnd(b) == j + |Closer|;
    assert RemoveBlocks(s) == s[..b.start] + RemoveBlocks(s[BlockEnd(b)..]);
  }

  // ---------------------------------------------------------------------------
  // Classification of a parsed payload

  /** Python's `key in v`: key membership for a dict, element membership for a list,
      substring test for a string, and a TypeError for anything else. */
  function Member(v: Value, key: string): (r: Result<bool, string>)
    ensures r.Ok? <==> v.Object? || v.Array? || v.Str?
    ensures v.Object? ==> r == Ok(HasKey(v.entries, key))
    ensures v.Array? ==> (r == Ok(true) <==> exists i :: 0 <= i < |v.items| && v.items[i] == Str(key))
    ensures v.Str? ==> (r == Ok(true) <==> exists j :: OccursAt(v.s, key, j))
  {
    match v
    case Object(es) => Ok(HasKey(es, key))
    case Array(items) => Ok(Str(key) in items)
    case Str(s) => IndexOfFirst(s, key, 0); Ok(Contains(s, key))
    case _ => Err("argument of type '" + TypeName(v) + "' is not iterable")
  }

  /** `k1 in v and k2 in v`, short-circuiting. */
  function HasBoth(v: Value, k1: string, k2: string): Result<bool, string> {
    match Member(v, k1)
    case Err(e) => Err(e)
    case Ok(false) => Ok(false)
    case Ok(true) => Member(v, k2)
  }

  predicate IsTvr(es: seq<Entry>) {
    HasKey(es, "siteNameConcernedPerson") && HasKey(es, "clientsRemarks")
  }

  predicate IsDvr(es: seq<Entry>) {
    HasKey(es, "dealerTotalPotential") && HasKey(es, "todayCollectionRupees")
  }

  predicate IsSalesOrder(es: seq<Entry>) {
    HasKey(es, "orderTotal") && HasKey(es, "estimatedDelivery")
  }

  /** Both keys of a signature are `in` the payload. */
  predicate Signature(v: Value, k1: string, k2: string) {
    Member(v, k1) == Ok(true) && Member(v, k2) == Ok(true)
  }

  /** The priority-ordered signature rule: TVR, then DVR, then sales order, and sales
      order again when nothing matches. */
  function Classify(v: Value): (r: Result<string, string>)
    ensures r.Ok? <==> v.Object? || v.Array? || v.Str?
    ensures r.Ok? ==> r.value in WriteTools
    ensures v.Object? ==> (r == Ok(TvrTool) <==> IsTvr(v.entries))
    ensures v.Object? ==> (r == Ok(DvrTool) <==> !IsTvr(v.entries) && IsDvr(v.entries))
    ensures v.Object? ==> (r == Ok(SalesOrderTool) <==> !IsTvr(v.entries) && !IsDvr(v.entries))
    ensures r == Ok(TvrTool) <==> Signature(v, "siteNameConcernedPerson", "clientsRemarks")
    ensures r == Ok(DvrTool) <==>
              !Signature(v, "siteNameConcernedPerson", "clientsRemarks")
              && Signature(v, "dealerTotalPotential", "todayCollectionRupees")
    ensures r == Ok(SalesOrderTool) <==>
              (v.Object? || v.Array? || v.Str?)
              && !Signature(v, "siteNameConcernedPerson", "clientsRemarks")
              && !Signature(v, "dealerTotalPotential", "todayCollectionRupees")
  {
    match HasBoth(v, "siteNameConcernedPerson", "clientsRemarks")
    case Err(e) => Err(e)
    case Ok(true) => Ok(TvrTool)
    case Ok(false) =>
      match HasBoth(v, "dealerTotalPotential", "todayCollectionRupees")
      case Err(e) => Err(e)
      case Ok(true) => Ok(DvrTool)
      case Ok(false) =>
        match HasBoth(v, "orderTotal", "estimatedDelivery")
        case Err(e) => Err(e)
        case Ok(true) => Ok(SalesOrderTool)
        case Ok(false) => Ok(SalesOrderTool)
  }

  /** A payload carrying every signature goes to the TVR tool, one with only the
      sales-order signature to the sales-order tool. */
  lemma ClassifyExamples(total: Value, delivery: Value, rest: seq<Entry>)
    ensures Classify(Object([Entry("orderTotal", total), Entry("estimatedDelivery", delivery)])) == Ok(SalesOrderTool)
    ensures var all := [Entry("orderTotal", total), Entry("dealerTotalPotential", total),
                        Entry("todayCollectionRupees", total), Entry("siteNameConcernedPerson", delivery),
                        Entry("clientsRemarks", delivery)] + rest;
            Classify(Object(all)) == Ok(TvrTool)
  {
    var all := [Entry("orderTotal", total), Entry("dealerTotalPotential", total),
                Entry("todayCollectionRupees", total), Entry("siteNameConcernedPerson", delivery),
                Entry("clientsRemarks", delivery)] + rest;
    assert all[3].key == "siteNameConcernedPerson" && all[4].key == "clientsRemarks";
  }

  /** A list payload is tested by element membership: one listing both TVR field
      names goes to the TVR tool. */
  lemma ClassifyListPayload(rest: seq<Value>)
    ensures Classify(Array([Str("siteNameConcernedPerson"), Str("clientsRemarks")] + rest)) == Ok(TvrTool)
  {
    var items := [Str("siteNameConcernedPerson"), Str("clientsRemarks")] + rest;
    assert items[0] == Str("siteNameConcernedPerson") && items[1] == Str("clientsRemarks");
  }

  // ---------------------------------------------------------------------------
  // Turn 1: handle_post_confirmation_request

  datatype Staging =
    | NotStaged
    | Staged(payload: Value, toolName: string, display: string)
    | StageRaised(error: string)

  /** What the first turn decides for a final answer. */
  function Stage(answer: string, parse: Parser): (r: Staging)
    ensures FindBlock(answer, 0).None? ==> r == NotStaged
    ensures FindBlock(answer, 0).Some? ==>
              var json := Strip(Captured(answer, FindBlock(answer, 0).value));
              && (r.NotStaged? <==> parse(json).Err?)
              && (r.Staged? ==> parse(json) == Ok(r.payload) && Classify(r.payload) == Ok(r.toolName))
              && (r.StageRaised? ==> parse(json).Ok? && Classify(parse(json).value) == Err(r.error))
    ensures r.Staged? ==> r.toolName in WriteTools && r.display == Strip(RemoveBlocks(answer))
                          && |r.display| < |answer|
  {
    match FindBlock(answer, 0)
    case None => NotStaged
    case Some(b) =>
      match parse(Strip(Captured(answer, b)))
      case Err(_) => NotStaged
      case Ok(payload) =>
        match Classify(payload)
        case Err(e) => StageRaised(e)
        case Ok(tool) => Staged(payload, tool, Strip(RemoveBlocks(answer)))
  }

  /** Round trip: a JSON object embedded in markers inside plain text is staged as that
      object, and the user sees the surrounding text with the block cut out. */
  lemma StageEmbedded(pre: string, body: string, post: string, parse: Parser, es: seq<Entry>)
    requires IndexOf(pre + Opener, Opener, 0) == Some(|pre|)
    requires IndexOf(body + Closer, Closer, 0) == Some(|body|)
    requires FindBlock(post, 0).None?
    requires parse(Strip(body)) == Ok(Object(es))
    ensures var r := Stage(pre + Opener + (body + Closer + post), parse);
            r.Staged? && r.payload == Object(es) && Classify(Object(es)) == Ok(r.toolName)
            && r.display == Strip(pre + post)
  {
    EmbeddedBlockFound(pre, body, post);
    EmbeddedBlockCaptured(pre, body, post);
    EmbeddedBlockRemoved(pre, body, post);
  }

  /** The first turn. On a staged write the two pending keys are overwritten together;
      otherwise (no block, a decode failure, or the TypeError of a scalar payload that
      escapes the handler) the state is untouched. */
  method HandleConfirmationRequest(answer: string, state: UserState, parse: Parser)
    returns (r: Result<(bool, string), string>)
    requires state.Valid()
    modifies state`pendingPayload, state`pendingToolName
    ensures state.Valid()
    ensures match Stage(answer, parse)
            case NotStaged =>
              r == Ok((false, answer))
              && state.pendingPayload == old(state.pendingPayload) && state.pendingToolName == old(state.pendingToolName)
            case StageRaised(e) =>
              r == Err(e)
              && state.pendingPayload == old(state.pendingPayload) && state.pendingToolName == old(state.pendingToolName)
            case Staged(payload, tool, display) =>
              r == Ok((true, display))
              && state.pendingPayload == Some(payload) && state.pendingToolName == Some(tool)
  {
    var found := FindBlock(answer, 0);
    if found.None? {
      return Ok((false, answer));
    }
    var json := Strip(Captured(answer, found.value));
    var parsed := parse(json);
    if parsed.Err? {
      return Ok((false, answer));
    }
    var tool := Classify(parsed.value);
    if tool.Err? {
      return Err(tool.error);
    }
    state.pendingPayload := Some(parsed.value);
    state.pendingToolName := Some(tool.value);
    r := Ok((true, Strip(RemoveBlocks(answer))));
  }

  // ---------------------------------------------------------------------------
  // Turn 2: handle_post_execution_reply

  /** `text.strip().upper() == 'Y'` */
  predicate IsConfirmation(text: string)
    ensures IsConfirmation(text) ==> |Strip(text)| == 1
  {
    Upper(Strip(text)) == "Y"
  }

  /** Only a lone "Y" or "y", whatever whitespace surrounds it, confirms. */
  lemma ConfirmationIsY(text: string)
    ensures IsConfirmation(text) <==> Strip(text) == "Y" || Strip(text) == "y"
  {
    var t := Strip(text);
    if IsConfirmation(text) {
      assert |t| == |Upper(t)| == 1;
      assert Upper(t)[0] == UpperChar(t[0]) == 'Y';
      assert t == [t[0]];
    }
    if t == "y" {
      assert Upper(t) == [UpperChar('y')];
    }
    if t == "Y" {
      assert Upper(t) == [UpperChar('Y')];
    }
  }

  /** The write gateway: the result of the stored call, or the text of its exception. */
  type WriteGateway = (string, Value) -> Result<Value, string>

  /** The header shown for a submitted write: the tool name with `_` as spaces, title-cased. */
  function SubmittedHeader(toolName: string): (r: string)
    ensures |r| == |toolName| + 32
    ensures r[..4] == "\U{2705} **" && r[4 + |toolName|..] == " successfully submitted!**\n\n"
    ensures forall i :: 0 <= i < |toolName| ==>
              if toolName[i] == '_' then r[4 + i] == ' '
              else r[4 + i] == UpperChar(toolName[i]) || r[4 + i] == LowerChar(toolName[i])
  {
    var opening, closing := "\U{2705} **", " successfully submitted!**\n\n";
    var spaced := ReplaceChar(toolName, '_', ' ');
    var title := Title(spaced);
    assert |opening| == 4 && |closing| == 28;
    var r := opening + title + closing;
    assert r[..4] == opening && r[4 + |title|..] == closing;
    assert forall i :: 0 <= i < |title| ==> r[4 + i] == title[i];
    assert forall i :: 0 <= i < |toolName| ==> spaced[i] == if toolName[i] == '_' then ' ' else toolName[i];
    r
  }

  /** For a snake-case tool name, the header capitalises the first letter of every
      underscore-separated word and shows each underscore as a space. */
  lemma HeaderCapitalisesWords(name: string)
    requires forall i :: 0 <= i < |name| ==> 'a' <= name[i] <= 'z' || name[i] == '_'
    ensures var t := Title(ReplaceChar(name, '_', ' '));
            forall i :: 0 <= i < |name| ==>
              t[i] == if name[i] == '_' then ' '
                      else if i == 0 || name[i - 1] == '_' then UpperChar(name[i]) else name[i]
  {
    var spaced := ReplaceChar(name, '_', ' ');
    assert forall i :: 0 <= i < |name| ==> spaced[i] == if name[i] == '_' then ' ' else name[i];
    TitleOfLowerWords(spaced, false);
    forall i | 0 <= i < |name|
      ensures Title(spaced)[i] == if name[i] == '_' then ' '
                                  else if i == 0 || name[i - 1] == '_' then UpperChar(name[i]) else name[i]
    {
      if i > 0 { assert spaced[i - 1] == ' ' <==> name[i - 1] == '_'; }
    }
  }

  /** The reply after a write ran: on success the header and then the pretty-printed
      result; on failure a line naming the tool, then the gateway's error text. */
  function SubmissionReport(toolName: string, result: Result<Value, string>, pretty: Printer): (r: string)
    ensures result.Ok? ==> |r| == |toolName| + 32 + |pretty(result.value)|
                           && r[..|toolName| + 32] == SubmittedHeader(toolName)
                           && r[|toolName| + 32..] == pretty(result.value)
    ensures result.Err? ==> |r| == |toolName| + 26 + |result.error|
                            && r[..|toolName| + 24] == "\U{274C} Submission Failed for " + toolName
                            && r[|toolName| + 24..] == ":\n" + result.error
  {
    match result
    case Ok(v) => SubmittedHeader(toolName) + pretty(v)
    case Err(e) => "\U{274C} Submission Failed for " + toolName + ":\n" + e
  }

  /** Running a popped pending write: only a truthy payload with a non-empty tool name
      runs, and then it counts as attempted whether the gateway succeeds or raises. */
  function Execution(payload: Option<Value>, toolName: Option<string>, callTool: WriteGateway, pretty: Printer)
    : (r: (bool, string))
    ensures r.0 <==> payload.Some? && Truthy(payload.value) && toolName.Some? && toolName.value != ""
    ensures r.0 ==> r.1 == SubmissionReport(toolName.value, callTool(toolName.value, payload.value), pretty)
    ensures !r.0 ==> r.1 == ""
  {
    if payload.Some? && Truthy(payload.value) && toolName.Some? && toolName.value != "" then
      (true, SubmissionReport(toolName.value, callTool(toolName.value, payload.value), pretty))
    else (false, "")
  }

  /** Pop both pending keys, then run the stored call if there is one. */
  method ExecutePending(state: UserState, callTool: WriteGateway, pretty: Printer)
    returns (executed: bool, response: string)
    requires state.Valid()
    modifies state`pendingPayload, state`pendingToolName
    ensures state.Valid() && state.pendingPayload == None && state.pendingToolName == None
    ensures (executed, response) == Execution(old(state.pendingPayload), old(state.pendingToolName), callTool, pretty)
  {
    var payload := state.pendingPayload;
    state.pendingPayload := None;
    var toolName := state.pendingToolName;
    state.pendingToolName := None;
    if payload.Some? && Truthy(payload.value) && toolName.Some? && toolName.value != "" {
      executed := true;
      response := SubmissionReport(toolName.value, callTool(toolName.value, payload.value), pretty);
    } else {
      executed, response := false, "";
    }
  }

  /** The second turn: anything but a "Y" is left to the model and touches nothing; a
      "Y" empties the pending slot whatever follows, and the reply is sent only when a
      stored write was attempted. */
  method HandleExecutionReply(text: string, state: UserState, callTool: WriteGateway, pretty: Printer)
    returns (attempted: bool, reply: Option<string>)
    requires state.Valid()
    modifies state`pendingPayload, state`pendingToolName
    ensures state.Valid()
    ensures !IsConfirmation(text) ==>
              !attempted && reply == None
              && state.pendingPayload == old(state.pendingPayload) && state.pendingToolName == old(state.pendingToolName)
    ensures IsConfirmation(text) ==>
              var e := Execution(old(state.pendingPayload), old(state.pendingToolName), callTool, pretty);
              state.pendingPayload == None && state.pendingToolName == None
              && attempted == e.0 && reply == (if e.0 then Some(e.1) else None)
  {
    if Upper(Strip(text)) != "Y" {
      return false, None;
    }
    var response;
    attempted, response := ExecutePending(state, callTool, pretty);
    reply := if attempted then Some(response) else None;
  }

  /** Pop semantics: after one "Y", a second "Y" with no new staging finds nothing. */
  method ConfirmTwice(text: string, state: UserState, callTool: WriteGateway, pretty: Printer)
    returns (second: bool)
    requires state.Valid() && IsConfirmation(text)
    modifies state`pendingPayload, state`pendingToolName
    ensures !second && state.pendingPayload == None && state.pendingToolName == None
  {
    var first, reply := HandleExecutionReply(text, state, callTool, pretty);
    second, reply := HandleExecutionReply(text, state, callTool, pretty);
  }
}
