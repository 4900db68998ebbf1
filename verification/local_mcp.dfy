/** The asynchronous tool-call resolver of test_mcp/test-local-mcp.py, which
    answers tool requests through an MCP session, and the prompt loop that
    drives it. Unlike the synchronous resolver it never lets an exception
    escape: a failing tool call becomes a tool message and a failing
    follow-up inference becomes the returned text. */
module LocalMcp {
  import opened Chat

  /** An item of a tool result's content; only text items have a `text` attribute. */
  datatype ContentItem = TextContent(text: string) | OtherContent(typeName: string)

  /** What `call_tool` does: return a result's content items, or raise. */
  datatype ToolOutcome = Returned(content: seq<ContentItem>) | Threw(error: string)

  /** The MCP session's `call_tool`, from tool name and arguments to outcome. */
  type Session = (string, Args) -> ToolOutcome

  const FailurePrefix := "tool call failed: "
  const ErrorPrefix := "Error processing tool results: "
  const UnknownId := "unknown"

  /** `tool_call.arguments or {}`: arguments that are None become the empty mapping. */
  function ArgumentsOf(call: ToolCall): (a: Args)
    ensures call.arguments.None? ==> a == map[]
    ensures call.arguments.Some? ==> a == call.arguments.value
  {
    if call.arguments.Some? then call.arguments.value else map[]
  }

  /** The message the `except` branch appends for a call that raised `e`. */
  function FailureMessage(call: ToolCall, e: string): Message {
    ToolResult(FailurePrefix + e, call.callId.GetOr(UnknownId), call.toolName)
  }

  /** The message for one content item, or the attribute error building it raises. */
  function ItemMessage(call: ToolCall, item: ContentItem): (r: Result<Message, string>)
    ensures r.Success? <==> item.TextContent? && call.callId.Some?
    ensures r.Success? ==> r.value == ToolResult(item.text, call.callId.value, call.toolName)
  {
    match item
    case OtherContent(kind) => Failure(AttributeError(kind, "text"))
    case TextContent(s) =>
      if call.callId.None? then Failure(AttributeError(ToolCallType, "call_id"))
      else Success(ToolResult(s, call.callId.value, call.toolName))
  }

  /** The inner loop over content items, stopping at the first exception. */
  function ItemMessages(call: ToolCall, items: seq<ContentItem>): Steps
    decreases |items|
  {
    if items == [] then Steps([], None)
    else
      var prev := ItemMessages(call, items[..|items| - 1]);
      if prev.raised.Some? then prev
      else
        match ItemMessage(call, items[|items| - 1])
        case Success(m) => Steps(prev.appended + [m], None)
        case Failure(e) => Steps(prev.appended, Some(e))
  }

  lemma {:induction false} ItemMessagesInOrder(call: ToolCall, items: seq<ContentItem>)
    ensures var s := ItemMessages(call, items);
            && |s.appended| <= |items|
            && (forall i :: 0 <= i < |s.appended| ==> ItemMessage(call, items[i]) == Success(s.appended[i]))
            && (s.raised.None? ==> |s.appended| == |items|)
            && (s.raised.Some? ==>
                  |s.appended| < |items| && ItemMessage(call, items[|s.appended|]) == Failure(s.raised.value))
    decreases |items|
  {
    if items != [] {
      var init := items[..|items| - 1];
      ItemMessagesInOrder(call, init);
      assert forall i :: 0 <= i < |init| ==> init[i] == items[i];
    }
  }

  /** Once a prefix of the items raises, the whole loop ends with that prefix's state. */
  lemma {:induction false} ItemPrefixRaisedPersists(call: ToolCall, items: seq<ContentItem>, n: nat)
    requires n <= |items|
    requires ItemMessages(call, items[..n]).raised.Some?
    ensures ItemMessages(call, items) == ItemMessages(call, items[..n])
    decreases |items| - n
  {
    if n < |items| {
      PrefixOfPrefix(items, n);
      ItemPrefixRaisedPersists(call, items, n + 1);
    } else {
      WholePrefix(items, n);
    }
  }

  /** The body of the `try` for one tool call, with its `except` branch. */
  function CallMessages(call: ToolCall, session: Session): seq<Message> {
    match session(call.toolName, ArgumentsOf(call))
    case Threw(e) => [FailureMessage(call, e)]
    case Returned(items) =>
      var s := ItemMessages(call, items);
      if s.raised.None? then s.appended else s.appended + [FailureMessage(call, s.raised.value)]
  }

  /** Every message for a call is a tool message naming the call's tool and
      carrying its call id ("unknown" only when the id is absent); a call that
      raises gives exactly one "tool call failed" message; a result whose items
      are all text gives one message per item, in item order, and an empty
      result gives none. */
  lemma CallMessagesSpec(call: ToolCall, session: Session)
    ensures var ms := CallMessages(call, session);
            forall j :: 0 <= j < |ms| ==>
              ms[j].ToolResult? && ms[j].toolName == call.toolName && ms[j].callId == call.callId.GetOr(UnknownId)
    ensures session(call.toolName, ArgumentsOf(call)).Threw? ==>
              CallMessages(call, session) == [FailureMessage(call, session(call.toolName, ArgumentsOf(call)).error)]
    ensures var out := session(call.toolName, ArgumentsOf(call));
            out.Returned? && call.callId.Some? && (forall i :: 0 <= i < |out.content| ==> out.content[i].TextContent?) ==>
              && |CallMessages(call, session)| == |out.content|
              && forall i :: 0 <= i < |out.content| ==>
                   CallMessages(call, session)[i] == ToolResult(out.content[i].text, call.callId.value, call.toolName)
    ensures session(call.toolName, ArgumentsOf(call)) == Returned([]) ==> CallMessages(call, session) == []
  {
    var out := session(call.toolName, ArgumentsOf(call));
    if out.Returned? {
      ItemMessagesInOrder(call, out.content);
      var s := ItemMessages(call, out.content);
      forall j | 0 <= j < |s.appended|
        ensures s.appended[j].ToolResult? && s.appended[j].toolName == call.toolName
        ensures s.appended[j].callId == call.callId.GetOr(UnknownId)
      {
        assert ItemMessage(call, out.content[j]) == Success(s.appended[j]);
      }
    }
  }

  /** A result broken by a non-text item, or by an absent call id, gives the
      messages of the text items before the break, then one "tool call
      failed" message with the attribute error the break raised. */
  lemma BrokenResultMessages(call: ToolCall, session: Session)
    requires session(call.toolName, ArgumentsOf(call)).Returned?
    requires ItemMessages(call, session(call.toolName, ArgumentsOf(call)).content).raised.Some?
    ensures 0 < |CallMessages(call, session)| <= |session(call.toolName, ArgumentsOf(call)).content|
    ensures var items := session(call.toolName, ArgumentsOf(call)).content;
            var ms := CallMessages(call, session);
            forall i :: 0 <= i < |ms| - 1 ==>
              call.callId.Some? && items[i].TextContent? &&
              ms[i] == ToolResult(items[i].text, call.callId.value, call.toolName)
    ensures var items := session(call.toolName, ArgumentsOf(call)).content;
            var ms := CallMessages(call, session);
            && |ms| <= |items|
            && ms[|ms| - 1] == FailureMessage(call,
                 if items[|ms| - 1].OtherContent? then AttributeError(items[|ms| - 1].typeName, "text")
                 else AttributeError(ToolCallType, "call_id"))
  {
    var items := session(call.toolName, ArgumentsOf(call)).content;
    ItemMessagesInOrder(call, items);
    var s := ItemMessages(call, items);
    var ms := CallMessages(call, session);
    assert ms == s.appended + [FailureMessage(call, s.raised.value)];
    var k := |s.appended|;
    assert ItemMessage(call, items[k]) == Failure(s.raised.value);
    assert s.raised.value == if items[k].OtherContent? then AttributeError(items[k].typeName, "text")
                             else AttributeError(ToolCallType, "call_id");
    assert ms[|ms| - 1] == FailureMessage(call, s.raised.value);
    assert forall i :: 0 <= i < |ms| - 1 ==> ms[i] == s.appended[i];
    if k > 0 {
      assert ItemMessage(call, items[0]) == Success(s.appended[0]);
    }
  }

  /** A non-empty result fails part-way exactly when some item is not text or the call id is absent. */
  lemma {:induction false} ItemMessagesRaise(call: ToolCall, items: seq<ContentItem>)
    ensures ItemMessages(call, items).raised.Some? <==>
              |items| > 0 && !(call.callId.Some? && forall i :: 0 <= i < |items| ==> items[i].TextContent?)
    decreases |items|
  {
    if items != [] {
      var init := items[..|items| - 1];
      ItemMessagesRaise(call, init);
      assert forall i :: 0 <= i < |init| ==> init[i] == items[i];
    }
  }

  /** The outer loop over the tool calls of one completion; it never raises. */
  function ResolveCalls(calls: seq<ToolCall>, session: Session): seq<Message>
    decreases |calls|
  {
    if calls == [] then []
    else ResolveCalls(calls[..|calls| - 1], session) + CallMessages(calls[|calls| - 1], session)
  }

  /** The tool names a list of calls requests. */
  function NamesOf(calls: seq<ToolCall>): set<string> {
    set i | 0 <= i < |calls| :: calls[i].toolName
  }

  /** Every message of a turn is a tool message naming one of the requested tools. */
  lemma {:induction false} ResolveCallsAreToolResults(calls: seq<ToolCall>, session: Session)
    ensures forall m :: m in ResolveCalls(calls, session) ==> m.ToolResult? && m.toolName in NamesOf(calls)
    decreases |calls|
  {
    if calls != [] {
      var init := calls[..|calls| - 1];
      var last := calls[|calls| - 1];
      ResolveCallsAreToolResults(init, session);
      CallMessagesSpec(last, session);
      assert NamesOf(calls) == NamesOf(init) + {last.toolName} by {
        assert forall i :: 0 <= i < |init| ==> init[i] == calls[i];
      }
      var lastMs := CallMessages(last, session);
      assert forall m :: m in lastMs ==> m.ToolResult? && m.toolName == last.toolName;
    }
  }

  /** Every message of a turn answers one of its calls: it carries that
      call's tool name and its call id, or "unknown" when the id is absent. */
  lemma {:induction false} ResolveCallsPairing(calls: seq<ToolCall>, session: Session)
    ensures forall m :: m in ResolveCalls(calls, session) ==>
              m.ToolResult? &&
              exists i :: 0 <= i < |calls| && m.toolName == calls[i].toolName && m.callId == calls[i].callId.GetOr(UnknownId)
    decreases |calls|
  {
    if calls != [] {
      var init := calls[..|calls| - 1];
      var k := |calls| - 1;
      ResolveCallsPairing(init, session);
      CallMessagesSpec(calls[k], session);
      forall m | m in ResolveCalls(calls, session)
        ensures m.ToolResult? &&
                exists i :: 0 <= i < |calls| && m.toolName == calls[i].toolName && m.callId == calls[i].callId.GetOr(UnknownId)
      {
        if m in ResolveCalls(init, session) {
          var i :| 0 <= i < |init| && m.toolName == init[i].toolName && m.callId == init[i].callId.GetOr(UnknownId);
          assert init[i] == calls[i];
        } else {
          var lastMs := CallMessages(calls[k], session);
          var j :| 0 <= j < |lastMs| && lastMs[j] == m;
        }
      }
    }
  }

  /** A way of answering the tool requests of one completion: the messages
      it appends. */
  type Answerer = seq<ToolCall> -> seq<Message>

  /** The script's way: the loop over the calls, through the session. */
  function SessionAnswerer(session: Session): Answerer {
    calls => ResolveCalls(calls, session)
  }

  /** `handle_response`, with the loop over tool requests given as `answer`:
      append the assistant turn (the dictionary of its role, content, stop
      reason and tool calls); if it requests tools, answer them, ask the
      model again and handle that reply the same way. A failing follow-up
      ends with an error text. At most `fuel` follow-ups are made. */
  function Resolve(t: seq<Message>, response: CompletionMessage, infer: Inference, answer: Answerer, fuel: nat): Run
    decreases fuel
  {
    var t1 := t + [Completion(response)];
    if !HasToolCalls(response) then Run(t1, [], Answer(response.content))
    else
      var t2 := t1 + answer(CallsOf(response));
      if fuel == 0 then Run(t2, [], OutOfFuel)
      else
        match infer(t2)
        case Failure(e) => Run(t2, [t2], Answer(ErrorPrefix + e))
        case Success(next) =>
          var rest := Resolve(t2, next, infer, answer, fuel - 1);
          Run(rest.transcript, [t2] + rest.asked, rest.outcome)
  }

  /** One step of the resolution, case by case: the transcript, the
      transcripts sent to the model and the outcome. */
  lemma ResolveStep(t: seq<Message>, response: CompletionMessage, infer: Inference, answer: Answerer, fuel: nat)
    ensures var r := Resolve(t, response, infer, answer, fuel);
            var t1 := t + [Completion(response)];
            var t2 := t1 + answer(CallsOf(response));
            && (!HasToolCalls(response) ==> r == Run(t1, [], Answer(response.content)))
            && (HasToolCalls(response) && fuel == 0 ==> r == Run(t2, [], OutOfFuel))
            && (HasToolCalls(response) && fuel > 0 ==>
                  && |r.asked| > 0 && r.asked[0] == t2
                  && (infer(t2).Failure? ==> r == Run(t2, [t2], Answer(ErrorPrefix + infer(t2).error)) && r.asked[1..] == [])
                  && (infer(t2).Success? ==>
                        var rest := Resolve(t2, infer(t2).value, infer, answer, fuel - 1);
                        && r.transcript == rest.transcript
                        && r.outcome == rest.outcome
                        && r.asked[1..] == rest.asked))
  {
  }

  /** A turn whose budget is spent, or whose follow-up inference fails,
      ends the resolution with the transcript as the turn left it. */
  lemma ResolveStops(t: seq<Message>, response: CompletionMessage, infer: Inference, answer: Answerer, fuel: nat)
    requires HasToolCalls(response)
    requires fuel == 0 || infer(t + [Completion(response)] + answer(CallsOf(response))).Failure?
    ensures var t2 := t + [Completion(response)] + answer(CallsOf(response));
            var r := Resolve(t, response, infer, answer, fuel);
            && r.transcript == t2
            && r.asked == (if fuel == 0 then [] else [t2])
            && r.outcome == (if fuel == 0 then OutOfFuel else Answer(ErrorPrefix + infer(t2).error))
  {
  }

  /** When the turn is answered and the model replies, the resolution goes on from that reply. */
  lemma ResolveContinues(t: seq<Message>, response: CompletionMessage, infer: Inference, answer: Answerer, fuel: nat)
    requires HasToolCalls(response) && fuel > 0
    requires infer(t + [Completion(response)] + answer(CallsOf(response))).Success?
    ensures var t2 := t + [Completion(response)] + answer(CallsOf(response));
            var r := Resolve(t, response, infer, answer, fuel);
            var rest := Resolve(t2, infer(t2).value, infer, answer, fuel - 1);
            r.transcript == rest.transcript && r.asked == [t2] + rest.asked && r.outcome == rest.outcome
  {
  }

  /** A completion without tool requests (absent, None or empty) ends the
      resolution at once: no tool call, no inference, its content returned. */
  lemma ResolveTerminal(t: seq<Message>, response: CompletionMessage, infer: Inference, answer: Answerer, fuel: nat)
    requires !HasToolCalls(response)
    ensures Resolve(t, response, infer, answer, fuel) == Run(t + [Completion(response)], [], Answer(response.content))
  {
  }

  /** Nothing escapes: the resolver returns a text unless the follow-up
      budget runs out. The text is either the content of the last entry, an
      assistant turn without tool requests, or the error text of the last
      follow-up, which failed. */
  lemma {:induction false} ResolveNeverRaises(t: seq<Message>, response: CompletionMessage, infer: Inference, answer: Answerer, fuel: nat)
    ensures var r := Resolve(t, response, infer, answer, fuel);
            && !r.outcome.Raised?
            && (r.outcome.Answer? ==>
                  || (&& |r.transcript| > 0
                      && r.transcript[|r.transcript| - 1].Completion?
                      && !HasToolCalls(r.transcript[|r.transcript| - 1].completion)
                      && r.transcript[|r.transcript| - 1].completion.content == r.outcome.text)
                  || (&& |r.asked| > 0
                      && r.transcript == r.asked[|r.asked| - 1]
                      && infer(r.transcript).Failure?
                      && r.outcome.text == ErrorPrefix + infer(r.transcript).error))
    decreases fuel
  {
    var r := Resolve(t, response, infer, answer, fuel);
    var t1 := t + [Completion(response)];
    if !HasToolCalls(response) {
      ResolveTerminal(t, response, infer, answer, fuel);
      assert r.transcript[|r.transcript| - 1] == Completion(response);
    } else {
      var t2 := t1 + answer(CallsOf(response));
      if fuel > 0 && infer(t2).Success? {
        ResolveContinues(t, response, infer, answer, fuel);
        ResolveNeverRaises(t2, infer(t2).value, infer, answer, fuel - 1);
        var rest := Resolve(t2, infer(t2).value, infer, answer, fuel - 1);
        if |rest.asked| > 0 {
          assert r.asked[|r.asked| - 1] == rest.asked[|rest.asked| - 1];
        }
      } else {
        ResolveStops(t, response, infer, answer, fuel);
      }
    }
  }

  /** The transcript only grows: the caller's entries, then the assistant
      turn, stay untouched; every transcript sent to the model is a prefix of
      the final one, each longer than the one before. */
  lemma {:induction false} ResolveAppendOnly(t: seq<Message>, response: CompletionMessage, infer: Inference, answer: Answerer, fuel: nat)
    ensures var r := Resolve(t, response, infer, answer, fuel);
            && |r.transcript| > |t|
            && r.transcript[..|t| + 1] == t + [Completion(response)]
            && (forall k :: 0 <= k < |r.asked| ==> |t| < |r.asked[k]| && r.asked[k] <= r.transcript)
            && (forall k, l :: 0 <= k < l < |r.asked| ==> |r.asked[k]| < |r.asked[l]|)
    decreases fuel
  {
    if HasToolCalls(response) {
      var t2 := t + [Completion(response)] + answer(CallsOf(response));
      if fuel > 0 && infer(t2).Success? {
        var next := infer(t2).value;
        ResolveAppendOnly(t2, next, infer, answer, fuel - 1);
        var rest := Resolve(t2, next, infer, answer, fuel - 1);
        assert rest.transcript[..|t| + 1] == rest.transcript[..|t2| + 1][..|t| + 1];
        assert t2 <= rest.transcript;
      }
    }
  }

  /** Every entry of `ms` is a tool message. */
  predicate OnlyToolResults(ms: seq<Message>) {
    forall j :: 0 <= j < |ms| ==> ms[j].ToolResult?
  }

  /** The session's loop answers with tool messages only, and never with an assistant turn. */
  lemma SessionAnswersAreToolResults(session: Session)
    ensures forall calls :: OnlyToolResults(SessionAnswerer(session)(calls))
    ensures forall calls :: NoCompletion(SessionAnswerer(session)(calls))
  {
    forall calls: seq<ToolCall>
      ensures OnlyToolResults(SessionAnswerer(session)(calls))
      ensures NoCompletion(SessionAnswerer(session)(calls))
    {
      var ms := ResolveCalls(calls, session);
      ResolveCallsAreToolResults(calls, session);
      assert forall j :: 0 <= j < |ms| ==> ms[j] in ms;
    }
  }

  /** One turn (the assistant turn and its tool messages) adds no user turn. */
  lemma TurnAddsNoPrompt(t: seq<Message>, response: CompletionMessage, turn: seq<Message>)
    requires OnlyToolResults(turn)
    ensures UserPrompts(t + [Completion(response)] + turn) == UserPrompts(t)
  {
    UserPromptsAppend(t, [Completion(response)]);
    assert UserPrompts([Completion(response)]) == [] by {
      assert [Completion(response)][..0] == [];
    }
    UserPromptsAppend(t + [Completion(response)], turn);
    ToolResultsHaveNoPrompt(turn);
  }

  /** Resolution adds no user turn when answering adds only tool messages. */
  lemma {:induction false} ResolveAddsNoPrompt(t: seq<Message>, response: CompletionMessage, infer: Inference, answer: Answerer, fuel: nat)
    requires forall calls :: OnlyToolResults(answer(calls))
    ensures UserPrompts(Resolve(t, response, infer, answer, fuel).transcript) == UserPrompts(t)
    decreases fuel
  {
    ResolveStep(t, response, infer, answer, fuel);
    if !HasToolCalls(response) {
      TurnAddsNoPrompt(t, response, []);
      assert t + [Completion(response)] + [] == t + [Completion(response)];
    } else {
      var t2 := t + [Completion(response)] + answer(CallsOf(response));
      TurnAddsNoPrompt(t, response, answer(CallsOf(response)));
      if fuel > 0 && infer(t2).Success? {
        ResolveAddsNoPrompt(t2, infer(t2).value, infer, answer, fuel - 1);
      }
    }
  }

  lemma {:induction false} ToolResultsHaveNoPrompt(ms: seq<Message>)
    requires OnlyToolResults(ms)
    ensures UserPrompts(ms) == []
    decreases |ms|
  {
    if ms != [] {
      ToolResultsHaveNoPrompt(ms[..|ms| - 1]);
    }
  }

  /** The transcript the model sees on a follow-up ends with an assistant turn
      that requests tools, followed by exactly the messages of answering
      those requests. */
  predicate ReadyForFollowUp(q: seq<Message>, answer: Answerer) {
    match LastCompletion(q)
    case None => false
    case Some(i) =>
      var calls := CallsOf(q[i].completion);
      calls != [] && q[i + 1..] == answer(calls)
  }

  /** The parts of a transcript ready for a follow-up. */
  lemma ReadyParts(q: seq<Message>, answer: Answerer)
    requires ReadyForFollowUp(q, answer)
    ensures var i := LastCompletion(q).value;
            var calls := CallsOf(q[i].completion);
            calls != [] && q[i + 1..] == answer(calls)
  {
  }

  /** With the session's loop, the messages after the latest assistant turn
      are the messages of its calls, call after call, each a tool message
      naming one of the requested tools. */
  lemma FollowUpAnswersCalls(q: seq<Message>, session: Session)
    requires ReadyForFollowUp(q, SessionAnswerer(session))
    ensures var i := LastCompletion(q).value;
            var calls := CallsOf(q[i].completion);
            && q[i + 1..] == ResolveCalls(calls, session)
            && forall m :: m in q[i + 1..] ==> m.ToolResult? && m.toolName in NamesOf(calls)
  {
    ReadyParts(q, SessionAnswerer(session));
    var i := LastCompletion(q).value;
    ResolveCallsAreToolResults(CallsOf(q[i].completion), session);
  }

  /** The transcript of a follow-up ends with an assistant turn requesting
      tools, followed by the messages of its calls, each a tool message
      naming one of the requested tools. A call whose result has empty
      content has no message, so not every call need be answered. */
  predicate AnswersCalls(q: seq<Message>, session: Session) {
    match LastCompletion(q)
    case None => false
    case Some(i) =>
      var calls := CallsOf(q[i].completion);
      && calls != []
      && q[i + 1..] == ResolveCalls(calls, session)
      && forall m :: m in q[i + 1..] ==> m.ToolResult? && m.toolName in NamesOf(calls)
  }

  /** Every transcript of the list is ready for its follow-up. */
  predicate AllReady(asked: seq<seq<Message>>, answer: Answerer)
    decreases |asked|
  {
    asked != [] ==> ReadyForFollowUp(asked[0], answer) && AllReady(asked[1..], answer)
  }

  lemma {:induction false} AllReadyAt(asked: seq<seq<Message>>, answer: Answerer, k: nat)
    requires AllReady(asked, answer) && k < |asked|
    ensures ReadyForFollowUp(asked[k], answer)
    decreases k
  {
    if k > 0 {
      AllReadyAt(asked[1..], answer, k - 1);
    }
  }

  /** A turn leaves the transcript ready for the follow-up. */
  lemma TurnReady(t: seq<Message>, response: CompletionMessage, answer: Answerer)
    requires HasToolCalls(response)
    requires NoCompletion(answer(CallsOf(response)))
    ensures ReadyForFollowUp(t + [Completion(response)] + answer(CallsOf(response)), answer)
  {
    var turn := answer(CallsOf(response));
    var t2 := t + [Completion(response)] + turn;
    LastCompletionOfTurn(t, response, turn);
    assert t2[|t|] == Completion(response);
    assert t2[|t| + 1..] == turn;
  }

  /** When answering appends no assistant turn, every follow-up inference
      sees a transcript ready for it. */
  lemma {:induction false} ResolveFollowUpsReady(t: seq<Message>, response: CompletionMessage, infer: Inference, answer: Answerer, fuel: nat)
    requires forall calls :: NoCompletion(answer(calls))
    ensures AllReady(Resolve(t, response, infer, answer, fuel).asked, answer)
    decreases fuel
  {
    ResolveStep(t, response, infer, answer, fuel);
    if HasToolCalls(response) && fuel > 0 {
      var t2 := t + [Completion(response)] + answer(CallsOf(response));
      TurnReady(t, response, answer);
      if infer(t2).Success? {
        ResolveFollowUpsReady(t2, infer(t2).value, infer, answer, fuel - 1);
      }
    }
  }

  /** In the script, every follow-up inference sees a transcript ready for
      it, which `FollowUpAnswersCalls` then describes. */
  lemma SessionFollowUpsReady(t: seq<Message>, response: CompletionMessage, infer: Inference, session: Session, fuel: nat)
    ensures AllReady(Resolve(t, response, infer, SessionAnswerer(session), fuel).asked, SessionAnswerer(session))
  {
    SessionAnswersAreToolResults(session);
    ResolveFollowUpsReady(t, response, infer, SessionAnswerer(session), fuel);
  }

  /** In the script, every transcript a follow-up inference is asked with
      answers each call of the latest assistant turn with tool messages. */
  lemma SessionFollowUpsAnswered(t: seq<Message>, response: CompletionMessage, infer: Inference, session: Session, fuel: nat)
    ensures forall q :: q in Resolve(t, response, infer, SessionAnswerer(session), fuel).asked ==> AnswersCalls(q, session)
  {
    var asked := Resolve(t, response, infer, SessionAnswerer(session), fuel).asked;
    SessionFollowUpsReady(t, response, infer, session, fuel);
    forall q | q in asked
      ensures AnswersCalls(q, session)
    {
      var k :| 0 <= k < |asked| && asked[k] == q;
      AllReadyAt(asked, SessionAnswerer(session), k);
      FollowUpAnswersCalls(q, session);
      ReadyParts(q, SessionAnswerer(session));
    }
  }

  /** The `for` loop over the content items of one successful call. */
  method AppendItems(transcript: Transcript, call: ToolCall, items: seq<ContentItem>) returns (raised: Option<string>)
    modifies transcript
    ensures transcript.messages == old(transcript.messages) + ItemMessages(call, items).appended
    ensures raised == ItemMessages(call, items).raised
  {
    var j := 0;
    while j < |items|
      invariant 0 <= j <= |items|
      invariant ItemMessages(call, items[..j]).raised.None?
      invariant transcript.messages == old(transcript.messages) + ItemMessages(call, items[..j]).appended
    {
      PrefixOfPrefix(items, j);
      var m := ItemMessage(call, items[j]);
      if m.Failure? {
        ItemPrefixRaisedPersists(call, items, j + 1);
        return Some(m.error);
      }
      transcript.Append(m.value);
      j := j + 1;
    }
    WholePrefix(items, j);
    return None;
  }

  /** The `try` for one tool call and its `except` branch. */
  method AnswerCall(transcript: Transcript, call: ToolCall, session: Session)
    modifies transcript
    ensures transcript.messages == old(transcript.messages) + CallMessages(call, session)
  {
    var out := session(call.toolName, ArgumentsOf(call));
    match out {
      case Threw(e) =>
        transcript.Append(FailureMessage(call, e));
      case Returned(items) =>
        var raised := AppendItems(transcript, call, items);
        if raised.Some? {
          transcript.Append(FailureMessage(call, raised.value));
        }
    }
  }

  /** The `for` loop over the tool calls of one completion. */
  method AnswerCalls(transcript: Transcript, calls: seq<ToolCall>, session: Session)
    modifies transcript
    ensures transcript.messages == old(transcript.messages) + ResolveCalls(calls, session)
  {
    var i := 0;
    while i < |calls|
      invariant 0 <= i <= |calls|
      invariant transcript.messages == old(transcript.messages) + ResolveCalls(calls[..i], session)
    {
      PrefixOfPrefix(calls, i);
      AnswerCall(transcript, calls[i], session);
      i := i + 1;
    }
    WholePrefix(calls, i);
  }

  /** `handle_response`: append the assistant turn; when it requests tools,
      answer them through the session, ask the model again and handle that
      reply the same way, or return the error text when that inference
      fails. `transcript` is the caller's `messages` list. */
  method HandleResponse(transcript: Transcript, response: CompletionMessage, infer: Inference, session: Session, fuel: nat)
    returns (outcome: Outcome)
    modifies transcript
    ensures transcript.messages == Resolve(old(transcript.messages), response, infer, SessionAnswerer(session), fuel).transcript
    ensures outcome == Resolve(old(transcript.messages), response, infer, SessionAnswerer(session), fuel).outcome
    decreases fuel, 1
  {
    ghost var t := transcript.messages;
    transcript.Append(Completion(CompletionMessage(response.role, response.content, response.stopReason, response.toolCalls)));
    if !HasToolCalls(response) {
      ResolveTerminal(t, response, infer, SessionAnswerer(session), fuel);
      outcome := Answer(response.content);
    } else {
      outcome := FollowUp(transcript, t, response, infer, session, fuel);
    }
  }

  /** The tool branch of `handle_response`, once the assistant turn
      requesting tools has been appended to the caller's transcript `t`. */
  method FollowUp(transcript: Transcript, ghost t: seq<Message>, response: CompletionMessage, infer: Inference, session: Session, fuel: nat)
    returns (outcome: Outcome)
    requires HasToolCalls(response)
    requires transcript.messages == t + [Completion(response)]
    modifies transcript
    ensures transcript.messages == Resolve(t, response, infer, SessionAnswerer(session), fuel).transcript
    ensures outcome == Resolve(t, response, infer, SessionAnswerer(session), fuel).outcome
    decreases fuel, 0
  {
    AnswerCalls(transcript, response.toolCalls.value, session);
    if fuel == 0 {
      ResolveStops(t, response, infer, SessionAnswerer(session), fuel);
      outcome := OutOfFuel;
    } else {
      var reply := infer(transcript.messages);
      if reply.Failure? {
        ResolveStops(t, response, infer, SessionAnswerer(session), fuel);
        outcome := Answer(ErrorPrefix + reply.error);
      } else {
        ResolveContinues(t, response, infer, SessionAnswerer(session), fuel);
        outcome := HandleResponse(transcript, reply.value, infer, session, fuel - 1);
      }
    }
  }

  /** When answering adds only tool messages, resolution keeps the first
      entry of the transcript and its user turns. */
  lemma ResolveKeepsOpening(t: seq<Message>, response: CompletionMessage, infer: Inference, answer: Answerer, fuel: nat)
    requires forall calls :: OnlyToolResults(answer(calls))
    requires |t| > 0
    ensures var r := Resolve(t, response, infer, answer, fuel);
            |r.transcript| > 0 && r.transcript[0] == t[0] && UserPrompts(r.transcript) == UserPrompts(t)
  {
    ResolveAddsNoPrompt(t, response, infer, answer, fuel);
    ResolveAppendOnly(t, response, infer, answer, fuel);
    var r := Resolve(t, response, infer, answer, fuel);
    assert r.transcript[0] == r.transcript[..|t| + 1][0];
  }

  /** A conversation: the final transcript and, per prompt, how it ended
      (`Raised` when the first inference for the prompt failed and the prompt
      was skipped). */
  datatype Conversation = Conversation(transcript: seq<Message>, answers: seq<Outcome>)

  /** The prompt loop of `main`: seed the transcript with the system
      instructions; per prompt, append the user turn, ask the model and
      resolve its response; an inference error skips to the next prompt. */
  function Converse(instructions: string, prompts: seq<string>, infer: Inference, session: Session, fuel: nat): Conversation
    decreases |prompts|
  {
    if prompts == [] then Conversation([Entry(System, instructions)], [])
    else
      var prev := Converse(instructions, prompts[..|prompts| - 1], infer, session, fuel);
      var t1 := prev.transcript + [Entry(User, prompts[|prompts| - 1])];
      match infer(t1)
      case Failure(e) => Conversation(t1, prev.answers + [Raised(e)])
      case Success(response) =>
        var r := Resolve(t1, response, infer, SessionAnswerer(session), fuel);
        Conversation(r.transcript, prev.answers + [r.outcome])
  }

  /** One more prompt keeps the opening entry, adds exactly its own user
      turn (kept even when the prompt is skipped) and one outcome. */
  lemma ConversePrompt(instructions: string, prompts: seq<string>, infer: Inference, session: Session, fuel: nat)
    requires prompts != []
    ensures var prev := Converse(instructions, prompts[..|prompts| - 1], infer, session, fuel);
            var c := Converse(instructions, prompts, infer, session, fuel);
            && |c.transcript| > 0
            && (|prev.transcript| > 0 ==> c.transcript[0] == prev.transcript[0])
            && UserPrompts(c.transcript) == UserPrompts(prev.transcript) + [prompts[|prompts| - 1]]
            && |c.answers| == |prev.answers| + 1
  {
    var prev := Converse(instructions, prompts[..|prompts| - 1], infer, session, fuel);
    var t1 := prev.transcript + [Entry(User, prompts[|prompts| - 1])];
    assert t1[..|t1| - 1] == prev.transcript;
    if infer(t1).Success? {
      SessionAnswersAreToolResults(session);
      ResolveKeepsOpening(t1, infer(t1).value, infer, SessionAnswerer(session), fuel);
    }
  }

  /** One more prompt keeps the whole history: the model is asked with the
      earlier transcript plus the new user turn, and that transcript stays a
      prefix. When that inference fails with e, the prompt is skipped with the
      outcome `Raised(e)` and the transcript ends at its user turn; otherwise
      the reply follows the user turn, and the prompt's outcome is not
      `Raised`, since resolution lets no exception escape. Earlier outcomes
      are kept. */
  lemma ConversePromptHistory(instructions: string, prompts: seq<string>, infer: Inference, session: Session, fuel: nat)
    requires prompts != []
    ensures var prev := Converse(instructions, prompts[..|prompts| - 1], infer, session, fuel);
            var c := Converse(instructions, prompts, infer, session, fuel);
            var t1 := prev.transcript + [Entry(User, prompts[|prompts| - 1])];
            && t1 <= c.transcript
            && |c.answers| == |prev.answers| + 1
            && c.answers[..|prev.answers|] == prev.answers
            && (infer(t1).Failure? ==>
                  c.transcript == t1 && c.answers[|prev.answers|] == Raised(infer(t1).error))
            && (infer(t1).Success? ==>
                  && |c.transcript| > |t1|
                  && c.transcript[..|t1| + 1] == t1 + [Completion(infer(t1).value)]
                  && !c.answers[|prev.answers|].Raised?)
  {
    var prev := Converse(instructions, prompts[..|prompts| - 1], infer, session, fuel);
    var t1 := prev.transcript + [Entry(User, prompts[|prompts| - 1])];
    var c := Converse(instructions, prompts, infer, session, fuel);
    assert (prev.answers + [c.answers[|prev.answers|]])[..|prev.answers|] == prev.answers;
    if infer(t1).Success? {
      var response := infer(t1).value;
      ResolveAppendOnly(t1, response, infer, SessionAnswerer(session), fuel);
      ResolveNeverRaises(t1, response, infer, SessionAnswerer(session), fuel);
      assert c.transcript[..|t1| + 1][..|t1|] == t1;
    }
  }

  /** The transcript opens with the system instructions, its user turns are
      exactly the prompts in order (a skipped prompt's turn stays), and every
      prompt gets one outcome. */
  lemma {:induction false} ConverseShape(instructions: string, prompts: seq<string>, infer: Inference, session: Session, fuel: nat)
    ensures var c := Converse(instructions, prompts, infer, session, fuel);
            && |c.transcript| > 0
            && c.transcript[0] == Entry(System, instructions)
            && UserPrompts(c.transcript) == prompts
            && |c.answers| == |prompts|
    decreases |prompts|
  {
    if prompts == [] {
      assert UserPrompts([Entry(System, instructions)]) == [] by {
        assert [Entry(System, instructions)][..0] == [];
      }
    } else {
      var init := prompts[..|prompts| - 1];
      ConverseShape(instructions, init, infer, session, fuel);
      ConversePrompt(instructions, prompts, infer, session, fuel);
      LastSplit(prompts);
    }
  }

  /** The conversation after the first `n` prompts is a prefix of the whole
      conversation, its transcript and its outcomes alike: no later prompt
      drops or rewrites earlier history. */
  lemma {:induction false} ConverseKeepsHistory(instructions: string, prompts: seq<string>, infer: Inference, session: Session, fuel: nat, n: nat)
    requires n <= |prompts|
    ensures var early := Converse(instructions, prompts[..n], infer, session, fuel);
            var c := Converse(instructions, prompts, infer, session, fuel);
            early.transcript <= c.transcript && early.answers <= c.answers
    decreases |prompts|
  {
    if n < |prompts| {
      var init := prompts[..|prompts| - 1];
      TakeOfFront(prompts, n);
      ConverseKeepsHistory(instructions, init, infer, session, fuel, n);
      ConversePromptHistory(instructions, prompts, infer, session, fuel);
    } else {
      WholePrefix(prompts, n);
    }
  }

  /** The prompt loop of `main`, run once. */
  method RunPrompts(instructions: string, prompts: seq<string>, infer: Inference, session: Session, fuel: nat)
    returns (transcript: Transcript, answers: seq<Outcome>)
    ensures fresh(transcript)
    ensures transcript.messages == Converse(instructions, prompts, infer, session, fuel).transcript
    ensures answers == Converse(instructions, prompts, infer, session, fuel).answers
  {
    transcript := new Transcript([Entry(System, instructions)]);
    answers := [];
    var i := 0;
    while i < |prompts|
      invariant 0 <= i <= |prompts|
      invariant transcript.messages == Converse(instructions, prompts[..i], infer, session, fuel).transcript
      invariant answers == Converse(instructions, prompts[..i], infer, session, fuel).answers
    {
      PrefixOfPrefix(prompts, i);
      transcript.Append(Entry(User, prompts[i]));
      var response := infer(transcript.messages);
      if response.Failure? {
        answers := answers + [Raised(response.error)];
      } else {
        var answer := HandleResponse(transcript, response.value, infer, session, fuel);
        answers := answers + [answer];
      }
      i := i + 1;
    }
    WholePrefix(prompts, i);
  }
}
