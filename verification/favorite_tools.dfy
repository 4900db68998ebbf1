/** The synchronous tool-call resolver of tests/test-tools.py: two
    string-matching tools, the registry that names them, and the resolver
    that answers every tool request of a completion and asks the model again
    until a completion carries no tool requests. Exceptions (from a handler
    or from inference) escape the resolver. */
module FavoriteTools {
  import opened Chat

  const ColorOttawa := "Favorite color for Ottawa, Canada is black."
  const ColorMontreal := "Favorite color for Montreal, Canada is red."
  const TeamOttawa := "Favorite hockey team for Ottawa, Canada is The Ottawa Senators."
  const TeamMontreal := "Favorite hockey team for Montreal, Canada is The Montreal Canadiens."
  const NotRecognized := "City or country not recognized. Assistant, please ask the user again."
  const InvalidTool := "Invalid tool called."

  /** `args.get(key) == value`: a missing key compares unequal. */
  predicate ArgIs(args: Args, key: string, value: string) {
    key in args && args[key] == value
  }

  predicate IsOttawa(args: Args) {
    ArgIs(args, "city", "Ottawa") && ArgIs(args, "country", "Canada")
  }

  predicate IsMontreal(args: Args) {
    ArgIs(args, "city", "Montreal") && ArgIs(args, "country", "Canada")
  }

  function FavoriteColor(args: Args): (r: string)
    ensures r == ColorOttawa <==> IsOttawa(args)
    ensures r == ColorMontreal <==> IsMontreal(args)
    ensures r == NotRecognized <==> !IsOttawa(args) && !IsMontreal(args)
  {
    if IsOttawa(args) then ColorOttawa
    else if IsMontreal(args) then ColorMontreal
    else NotRecognized
  }

  function FavoriteHockeyTeam(args: Args): (r: string)
    ensures r == TeamOttawa <==> IsOttawa(args)
    ensures r == TeamMontreal <==> IsMontreal(args)
    ensures r == NotRecognized <==> !IsOttawa(args) && !IsMontreal(args)
  {
    if IsOttawa(args) then TeamOttawa
    else if IsMontreal(args) then TeamMontreal
    else NotRecognized
  }

  /** The handlers of the registry. */
  datatype Handler = ColorHandler | HockeyHandler

  const RegisteredNames: set<string> := {"favorite_color_tool", "favorite_hockey_tool"}

  /** `funcs.get(name)`: the handler registered under a tool name. */
  function Lookup(name: string): (h: Option<Handler>)
    ensures h == Some(ColorHandler) <==> name == "favorite_color_tool"
    ensures h == Some(HockeyHandler) <==> name == "favorite_hockey_tool"
    ensures h.None? <==> name !in RegisteredNames
  {
    if name == "favorite_color_tool" then Some(ColorHandler)
    else if name == "favorite_hockey_tool" then Some(HockeyHandler)
    else None
  }

  function Invoke(h: Handler, args: Args): string {
    match h
    case ColorHandler => FavoriteColor(args)
    case HockeyHandler => FavoriteHockeyTeam(args)
  }

  /** One iteration of the loop over tool calls: the tool message it appends,
      or the exception it raises (calling a handler with absent arguments, or
      reading an absent call id). */
  function ToolMessage(call: ToolCall): (r: Result<Message, string>)
    ensures r.Success? <==> call.callId.Some? && (Lookup(call.toolName).None? || call.arguments.Some?)
    ensures r.Success? ==> r.value.ToolResult? && r.value.callId == call.callId.value && r.value.toolName == call.toolName
    ensures r.Success? && Lookup(call.toolName).None? ==> r.value.content == InvalidTool
    ensures r.Success? && Lookup(call.toolName).Some? ==>
              r.value.content == Invoke(Lookup(call.toolName).value, call.arguments.value)
  {
    var result :=
      match Lookup(call.toolName)
      case None => Success(InvalidTool)
      case Some(h) =>
        if call.arguments.None? then Failure(AttributeError("NoneType", "get"))
        else Success(Invoke(h, call.arguments.value));
    if result.Failure? then Failure(result.error)
    else if call.callId.None? then Failure(AttributeError(ToolCallType, "call_id"))
    else Success(ToolResult(result.value, call.callId.value, call.toolName))
  }

  /** The exception a loop iteration raises: calling a known handler with None
      arguments fails first (`None.get`), before the absent call id is read. */
  lemma ToolMessageError(call: ToolCall)
    requires ToolMessage(call).Failure?
    ensures ToolMessage(call).error ==
              if Lookup(call.toolName).Some? && call.arguments.None? then AttributeError("NoneType", "get")
              else AttributeError(ToolCallType, "call_id")
  {
  }

  /** The loop over the tool calls of one completion, stopping at the first exception. */
  function ResolveCalls(calls: seq<ToolCall>): Steps
    decreases |calls|
  {
    if calls == [] then Steps([], None)
    else
      var prev := ResolveCalls(calls[..|calls| - 1]);
      if prev.raised.Some? then prev
      else
        match ToolMessage(calls[|calls| - 1])
        case Success(m) => Steps(prev.appended + [m], None)
        case Failure(e) => Steps(prev.appended, Some(e))
  }

  /** The calls are answered in request order, one tool message each, up to
      the first call that raises, whose exception is reported; when none
      raises, every call is answered. */
  lemma {:induction false} ResolveCallsInOrder(calls: seq<ToolCall>)
    ensures var s := ResolveCalls(calls);
            && |s.appended| <= |calls|
            && (forall i :: 0 <= i < |s.appended| ==> ToolMessage(calls[i]) == Success(s.appended[i]))
            && (s.raised.None? ==> |s.appended| == |calls|)
            && (s.raised.Some? ==>
                  |s.appended| < |calls| && ToolMessage(calls[|s.appended|]) == Failure(s.raised.value))
    decreases |calls|
  {
    if calls != [] {
      var init := calls[..|calls| - 1];
      ResolveCallsInOrder(init);
      var prev := ResolveCalls(init);
      assert forall i :: 0 <= i < |init| ==> init[i] == calls[i];
      if prev.raised.None? {
        assert |prev.appended| == |calls| - 1;
      }
    }
  }

  /** The loop runs to completion exactly when no call raises. */
  lemma ResolveCallsCompletes(calls: seq<ToolCall>)
    ensures ResolveCalls(calls).raised.None? <==> forall i :: 0 <= i < |calls| ==> ToolMessage(calls[i]).Success?
  {
    ResolveCallsInOrder(calls);
  }

  /** Tool messages are never assistant turns. */
  lemma ResolveCallsAddsNoCompletion(calls: seq<ToolCall>)
    ensures NoCompletion(ResolveCalls(calls).appended)
  {
    var s := ResolveCalls(calls);
    ResolveCallsInOrder(calls);
    forall j | 0 <= j < |s.appended|
      ensures !s.appended[j].Completion?
    {
      assert ToolMessage(calls[j]) == Success(s.appended[j]);
    }
  }

  /** A way of answering the tool requests of one completion: the messages it
      appends and the exception it lets escape, if any. The script's own is
      `ResolveCalls`. */
  type Answerer = seq<ToolCall> -> Steps

  /** `handle_response`, with the loop over tool requests given as `answer`:
      append the completion; if it requests tools, answer them, ask the model
      again with the extended transcript and repeat. At most `fuel` follow-up
      requests are made. */
  function Resolve(t: seq<Message>, response: CompletionMessage, infer: Inference, answer: Answerer, fuel: nat): Run
    decreases fuel
  {
    var t1 := t + [Completion(response)];
    if !HasToolCalls(response) then Run(t1, [], Answer(response.content))
    else
      var turn := answer(CallsOf(response));
      var t2 := t1 + turn.appended;
      if turn.raised.Some? then Run(t2, [], Raised(turn.raised.value))
      else if fuel == 0 then Run(t2, [], OutOfFuel)
      else
        match infer(t2)
        case Failure(e) => Run(t2, [t2], Raised(e))
        case Success(next) =>
          var rest := Resolve(t2, next, infer, answer, fuel - 1);
          Run(rest.transcript, [t2] + rest.asked, rest.outcome)
  }

  /** One step of the resolution, case by case: the transcript, the
      transcripts sent to the model and the outcome. */
  lemma ResolveStep(t: seq<Message>, response: CompletionMessage, infer: Inference, answer: Answerer, fuel: nat)
    ensures var r := Resolve(t, response, infer, answer, fuel);
            var turn := answer(CallsOf(response));
            var t1 := t + [Completion(response)];
            var t2 := t1 + turn.appended;
            && (!HasToolCalls(response) ==> r == Run(t1, [], Answer(response.content)))
            && (HasToolCalls(response) && turn.raised.Some? ==> r == Run(t2, [], Raised(turn.raised.value)))
            && (HasToolCalls(response) && turn.raised.None? && fuel == 0 ==> r == Run(t2, [], OutOfFuel))
            && (HasToolCalls(response) && turn.raised.None? && fuel > 0 ==>
                  && |r.asked| > 0 && r.asked[0] == t2
                  && (infer(t2).Failure? ==> r == Run(t2, [t2], Raised(infer(t2).error)) && r.asked[1..] == [])
                  && (infer(t2).Success? ==>
                        var rest := Resolve(t2, infer(t2).value, infer, answer, fuel - 1);
                        && r.transcript == rest.transcript
                        && r.outcome == rest.outcome
                        && r.asked[1..] == rest.asked))
  {
  }

  /** A turn that raises, runs out of budget, or whose follow-up inference
      fails ends the resolution with the transcript as the turn left it. */
  lemma ResolveStops(t: seq<Message>, response: CompletionMessage, infer: Inference, answer: Answerer, fuel: nat)
    requires HasToolCalls(response)
    requires var turn := answer(CallsOf(response));
             turn.raised.Some? || fuel == 0 || infer(t + [Completion(response)] + turn.appended).Failure?
    ensures var turn := answer(CallsOf(response));
            var t2 := t + [Completion(response)] + turn.appended;
            var r := Resolve(t, response, infer, answer, fuel);
            && r.transcript == t2
            && r.outcome == (if turn.raised.Some? then Raised(turn.raised.value)
                             else if fuel == 0 then OutOfFuel
                             else Raised(infer(t2).error))
  {
  }

  /** When the turn is answered and the model replies, the resolution goes on from that reply. */
  lemma ResolveContinues(t: seq<Message>, response: CompletionMessage, infer: Inference, answer: Answerer, fuel: nat)
    requires HasToolCalls(response) && answer(CallsOf(response)).raised.None? && fuel > 0
    requires infer(t + [Completion(response)] + answer(CallsOf(response)).appended).Success?
    ensures var t2 := t + [Completion(response)] + answer(CallsOf(response)).appended;
            var r := Resolve(t, response, infer, answer, fuel);
            var rest := Resolve(t2, infer(t2).value, infer, answer, fuel - 1);
            r.transcript == rest.transcript && r.outcome == rest.outcome
  {
  }

  /** A completion without tool requests ends the resolution at once: one
      message appended, its content returned, no inference requested. */
  lemma ResolveTerminal(t: seq<Message>, response: CompletionMessage, infer: Inference, answer: Answerer, fuel: nat)
    requires !HasToolCalls(response)
    ensures Resolve(t, response, infer, answer, fuel) == Run(t + [Completion(response)], [], Answer(response.content))
  {
  }

  /** The transcript only grows: the caller's entries, then the completion,
      stay untouched; every transcript sent to the model is a prefix of the
      final one, each longer than the one before. */
  lemma {:induction false} ResolveAppendOnly(t: seq<Message>, response: CompletionMessage, infer: Inference, answer: Answerer, fuel: nat)
    ensures var r := Resolve(t, response, infer, answer, fuel);
            && |r.transcript| > |t|
            && r.transcript[..|t| + 1] == t + [Completion(response)]
            && (forall k :: 0 <= k < |r.asked| ==> |t| < |r.asked[k]| && r.asked[k] <= r.transcript)
            && (forall k, l :: 0 <= k < l < |r.asked| ==> |r.asked[k]| < |r.asked[l]|)
    decreases fuel
  {
    var t1 := t + [Completion(response)];
    if HasToolCalls(response) {
      var turn := answer(CallsOf(response));
      var t2 := t1 + turn.appended;
      if turn.raised.None? && fuel > 0 && infer(t2).Success? {
        var next := infer(t2).value;
        ResolveAppendOnly(t2, next, infer, answer, fuel - 1);
        var rest := Resolve(t2, next, infer, answer, fuel - 1);
        assert rest.transcript[..|t| + 1] == rest.transcript[..|t2| + 1][..|t| + 1];
        assert t2 <= rest.transcript;
      }
    }
  }

  /** The transcript the model sees on a follow-up ends with an assistant turn
      that requests tools, followed by the messages of answering those
      requests, which ran to completion. */
  predicate ReadyForFollowUp(q: seq<Message>, answer: Answerer) {
    match LastCompletion(q)
    case None => false
    case Some(i) =>
      var calls := CallsOf(q[i].completion);
      && calls != []
      && answer(calls).raised.None?
      && q[i + 1..] == answer(calls).appended
  }

  /** The parts of a transcript ready for a follow-up. */
  lemma ReadyParts(q: seq<Message>, answer: Answerer)
    requires ReadyForFollowUp(q, answer)
    ensures var i := LastCompletion(q).value;
            var calls := CallsOf(q[i].completion);
            && calls != []
            && answer(calls).raised.None?
            && q[i + 1..] == answer(calls).appended
  {
  }

  /** A loop over tool calls that runs to completion answers every call, in
      request order, with a tool message carrying that call's id and tool name. */
  lemma CompletedCallsAnswered(calls: seq<ToolCall>)
    requires ResolveCalls(calls).raised.None?
    ensures var answers := ResolveCalls(calls).appended;
            && |answers| == |calls|
            && forall j :: 0 <= j < |calls| ==>
                 && ToolMessage(calls[j]) == Success(answers[j])
                 && answers[j].ToolResult?
                 && answers[j].callId == calls[j].callId.value
                 && answers[j].toolName == calls[j].toolName
  {
    ResolveCallsInOrder(calls);
  }

  /** After the latest assistant turn of `q`, which requests tools, come
      exactly one tool message per request, in request order, each the
      answer to that request and carrying its call id and tool name. */
  predicate AnswersEveryCall(q: seq<Message>) {
    match LastCompletion(q)
    case None => false
    case Some(i) =>
      var calls := CallsOf(q[i].completion);
      var answers := q[i + 1..];
      && calls != []
      && |answers| == |calls|
      && forall j :: 0 <= j < |calls| ==>
           && ToolMessage(calls[j]) == Success(answers[j])
           && answers[j].ToolResult?
           && answers[j].callId == calls[j].callId.value
           && answers[j].toolName == calls[j].toolName
  }

  /** With the script's loop, a transcript ready for a follow-up answers
      every request of its latest assistant turn. */
  lemma FollowUpAnswersEveryCall(q: seq<Message>)
    requires ReadyForFollowUp(q, ResolveCalls)
    ensures AnswersEveryCall(q)
  {
    ReadyParts(q, ResolveCalls);
    var i := LastCompletion(q).value;
    CompletedCallsAnswered(CallsOf(q[i].completion));
  }

  /** A turn whose answering completes leaves the transcript ready for the follow-up. */
  lemma TurnReady(t: seq<Message>, response: CompletionMessage, answer: Answerer)
    requires HasToolCalls(response)
    requires answer(CallsOf(response)).raised.None?
    requires NoCompletion(answer(CallsOf(response)).appended)
    ensures ReadyForFollowUp(t + [Completion(response)] + answer(CallsOf(response)).appended, answer)
  {
    var turn := answer(CallsOf(response));
    var t2 := t + [Completion(response)] + turn.appended;
    LastCompletionOfTurn(t, response, turn.appended);
    assert t2[|t|] == Completion(response);
    assert t2[|t| + 1..] == turn.appended;
  }

  /** Every transcript of the list is ready for its follow-up. */
  predicate AllReady(asked: seq<seq<Message>>, answer: Answerer)
    decreases |asked|
  {
    asked != [] ==> ReadyForFollowUp(asked[0], answer) && AllReady(asked[1..], answer)
  }

  lemma {:induction false} AllReadyAt(asked: seq<seq<Message>>, answer: Answerer, k: nat)
    requires AllReady(asked, answer) && k < |asked|
    ensures ReadyForFollowUp(asked[k], answer)
    decreases k
  {
    if k > 0 {
      AllReadyAt(asked[1..], answer, k - 1);
    }
  }

  /** When answering appends no assistant turn, every follow-up inference
      sees a transcript ready for it. */
  lemma {:induction false} ResolveFollowUpsReady(t: seq<Message>, response: CompletionMessage, infer: Inference, answer: Answerer, fuel: nat)
    requires forall calls :: NoCompletion(answer(calls).appended)
    ensures AllReady(Resolve(t, response, infer, answer, fuel).asked, answer)
    decreases fuel
  {
    ResolveStep(t, response, infer, answer, fuel);
    var turn := answer(CallsOf(response));
    var t2 := t + [Completion(response)] + turn.appended;
    if HasToolCalls(response) && turn.raised.None? && fuel > 0 {
      TurnReady(t, response, answer);
      if infer(t2).Success? {
        ResolveFollowUpsReady(t2, infer(t2).value, infer, answer, fuel - 1);
      }
    }
  }

  /** In the script, every follow-up inference sees a transcript ready for
      it, which `FollowUpAnswersEveryCall` then describes message by message. */
  lemma ScriptFollowUpsReady(t: seq<Message>, response: CompletionMessage, infer: Inference, fuel: nat)
    ensures AllReady(Resolve(t, response, infer, ResolveCalls, fuel).asked, ResolveCalls)
  {
    forall calls: seq<ToolCall>
      ensures NoCompletion(ResolveCalls(calls).appended)
    {
      ResolveCallsAddsNoCompletion(calls);
    }
    ResolveFollowUpsReady(t, response, infer, ResolveCalls, fuel);
  }

  /** Every transcript the script sends to the model on a follow-up answers
      every request of its latest assistant turn, one tool message each. */
  lemma ScriptFollowUpsAnswered(t: seq<Message>, response: CompletionMessage, infer: Inference, fuel: nat)
    ensures forall q :: q in Resolve(t, response, infer, ResolveCalls, fuel).asked ==> AnswersEveryCall(q)
  {
    var asked := Resolve(t, response, infer, ResolveCalls, fuel).asked;
    ScriptFollowUpsReady(t, response, infer, fuel);
    forall q | q in asked
      ensures AnswersEveryCall(q)
    {
      var k :| 0 <= k < |asked| && asked[k] == q;
      AllReadyAt(asked, ResolveCalls, k);
      FollowUpAnswersEveryCall(q);
    }
  }

  /** A returned answer is the content of the last entry of the transcript,
      an assistant turn without tool requests. */
  lemma {:induction false} ResolveAnswerIsFinalTurn(t: seq<Message>, response: CompletionMessage, infer: Inference, answer: Answerer, fuel: nat)
    ensures var r := Resolve(t, response, infer, answer, fuel);
            r.outcome.Answer? ==>
              && |r.transcript| > 0
              && r.transcript[|r.transcript| - 1].Completion?
              && !HasToolCalls(r.transcript[|r.transcript| - 1].completion)
              && r.transcript[|r.transcript| - 1].completion.content == r.outcome.text
    decreases fuel
  {
    if HasToolCalls(response) {
      var turn := answer(CallsOf(response));
      var t2 := t + [Completion(response)] + turn.appended;
      if turn.raised.None? && fuel > 0 && infer(t2).Success? {
        ResolveAnswerIsFinalTurn(t2, infer(t2).value, infer, answer, fuel - 1);
      }
    }
  }

  /** The `for` loop over the tool calls of one completion: appends one
      tool message per call, in order, until a call raises. */
  method AnswerCalls(transcript: Transcript, calls: seq<ToolCall>) returns (raised: Option<string>)
    modifies transcript
    ensures transcript.messages == old(transcript.messages) + ResolveCalls(calls).appended
    ensures raised == ResolveCalls(calls).raised
  {
    var i := 0;
    while i < |calls|
      invariant 0 <= i <= |calls|
      invariant ResolveCalls(calls[..i]).raised.None?
      invariant transcript.messages == old(transcript.messages) + ResolveCalls(calls[..i]).appended
    {
      PrefixOfPrefix(calls, i);
      var m := ToolMessage(calls[i]);
      if m.Failure? {
        PrefixRaisedPersists(calls, i + 1);
        return Some(m.error);
      }
      transcript.Append(m.value);
      i := i + 1;
    }
    WholePrefix(calls, i);
    return None;
  }

  /** `handle_response`: append the completion; when it requests tools,
      answer them, ask the model again and handle that reply the same way.
      `transcript` is the caller's `messages` list. */
  method HandleResponse(transcript: Transcript, response: CompletionMessage, infer: Inference, fuel: nat)
    returns (outcome: Outcome)
    modifies transcript
    ensures transcript.messages == Resolve(old(transcript.messages), response, infer, ResolveCalls, fuel).transcript
    ensures outcome == Resolve(old(transcript.messages), response, infer, ResolveCalls, fuel).outcome
    decreases fuel, 1
  {
    ghost var t := transcript.messages;
    transcript.Append(Completion(response));
    if !HasToolCalls(response) {
      ResolveTerminal(t, response, infer, ResolveCalls, fuel);
      outcome := Answer(response.content);
    } else {
      outcome := FollowUp(transcript, t, response, infer, fuel);
    }
  }

  /** The tool branch of `handle_response`, once the completion requesting
      tools has been appended to the caller's transcript `t`. */
  method FollowUp(transcript: Transcript, ghost t: seq<Message>, response: CompletionMessage, infer: Inference, fuel: nat)
    returns (outcome: Outcome)
    requires HasToolCalls(response)
    requires transcript.messages == t + [Completion(response)]
    modifies transcript
    ensures transcript.messages == Resolve(t, response, infer, ResolveCalls, fuel).transcript
    ensures outcome == Resolve(t, response, infer, ResolveCalls, fuel).outcome
    decreases fuel, 0
  {
    var raised := AnswerCalls(transcript, CallsOf(response));
    if raised.Some? || fuel == 0 {
      ResolveStops(t, response, infer, ResolveCalls, fuel);
      outcome := if raised.Some? then Raised(raised.value) else OutOfFuel;
    } else {
      var reply := infer(transcript.messages);
      if reply.Failure? {
        ResolveStops(t, response, infer, ResolveCalls, fuel);
        outcome := Raised(reply.error);
      } else {
        ResolveContinues(t, response, infer, ResolveCalls, fuel);
        outcome := HandleResponse(transcript, reply.value, infer, fuel - 1);
      }
    }
  }

  /** Once a prefix of the calls raises, the whole loop ends with that prefix's state. */
  lemma {:induction false} PrefixRaisedPersists(calls: seq<ToolCall>, n: nat)
    requires n <= |calls|
    requires ResolveCalls(calls[..n]).raised.Some?
    ensures ResolveCalls(calls) == ResolveCalls(calls[..n])
    decreases |calls| - n
  {
    if n < |calls| {
      PrefixOfPrefix(calls, n);
      PrefixRaisedPersists(calls, n + 1);
    } else {
      WholePrefix(calls, n);
    }
  }
}
