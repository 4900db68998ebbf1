/** Conversation data shared by both tool-call resolvers: the messages of a chat
    transcript, the tool requests a model emits, the outcome of resolving them,
    and the transcript object that the resolvers append to in place. */
module Chat {

  datatype Option<+T> = None | Some(value: T) {
    function GetOr(default: T): T {
      match this
      case Some(v) => v
      case None => default
    }
  }

  datatype Result<+R, +E> = Success(value: R) | Failure(error: E)

  /** The argument mapping of a tool request, from argument name to value. */
  type Args = map<string, string>

  /** The role a completion message reports, or that a plain entry carries.
      Tool messages have a form of their own, `ToolResult`. */
  datatype Role = System | User | Assistant

  /** A tool request emitted by the model. `callId` is None when the request
      lacks the `call_id` attribute; `arguments` is None when the arguments
      are None. */
  datatype ToolCall = ToolCall(callId: Option<string>, toolName: string, arguments: Option<Args>)

  /** The completion message of an inference response. An optional attribute
      set to None is `None`. The MCP script reads `stop_reason` and
      `tool_calls` through `getattr` with a None default, so for it a missing
      attribute is `None` too; the synchronous script reads `tool_calls`
      directly, and a completion lacking that attribute is outside the model. */
  datatype CompletionMessage = CompletionMessage(
    role: Role,
    content: string,
    stopReason: Option<string>,
    toolCalls: Option<seq<ToolCall>>)

  /** One transcript entry: a plain system or user turn, an assistant turn
      carrying the model's completion, or the result of one tool call. The
      scripts append assistant turns only as `Completion`s, never as an
      `Entry` with the assistant role. */
  datatype Message =
    | Entry(role: Role, content: string)
    | Completion(completion: CompletionMessage)
    | ToolResult(content: string, callId: string, toolName: string)

  /** The requested tool calls; None reads as none. */
  function CallsOf(m: CompletionMessage): seq<ToolCall> {
    if m.toolCalls.Some? then m.toolCalls.value else []
  }

  /** The branch condition of both resolvers: tool calls present, not None and not empty. */
  predicate HasToolCalls(m: CompletionMessage) {
    CallsOf(m) != []
  }

  /** The inference boundary: given the transcript, a completion or a failure description. */
  type Inference = seq<Message> -> Result<CompletionMessage, string>

  /** How a resolution ends: the text it returns, the exception it lets
      escape, or (an artefact of the model) the follow-up budget ran out. */
  datatype Outcome = Answer(text: string) | Raised(error: string) | OutOfFuel

  /** A whole resolution: the final transcript, every transcript handed to the
      inference boundary (in call order), and the outcome. */
  datatype Run = Run(transcript: seq<Message>, asked: seq<seq<Message>>, outcome: Outcome)

  /** Messages appended by a loop that may stop early with an exception. */
  datatype Steps = Steps(appended: seq<Message>, raised: Option<string>)

  /** The text of the exception raised when an attribute is read from an
      object of a type that lacks it. */
  function AttributeError(typeName: string, attribute: string): string {
    "'" + typeName + "' object has no attribute '" + attribute + "'"
  }

  const ToolCallType := "ToolCall"

  /** No entry of `ms` is an assistant turn. */
  predicate NoCompletion(ms: seq<Message>) {
    forall j :: 0 <= j < |ms| ==> !ms[j].Completion?
  }

  /** The position of the latest assistant turn in a transcript, if any. */
  function LastCompletion(q: seq<Message>): (r: Option<nat>)
    ensures r.Some? ==> r.value < |q| && q[r.value].Completion?
    ensures r.Some? ==> forall j :: r.value < j < |q| ==> !q[j].Completion?
    ensures r.None? ==> NoCompletion(q)
  {
    if q == [] then None
    else if q[|q| - 1].Completion? then Some(|q| - 1)
    else LastCompletion(q[..|q| - 1])
  }

  /** After an assistant turn followed only by non-assistant entries, that
      turn is the latest one. */
  lemma {:induction false} LastCompletionOfTurn(t: seq<Message>, m: CompletionMessage, tail: seq<Message>)
    requires NoCompletion(tail)
    ensures LastCompletion(t + [Completion(m)] + tail) == Some(|t|)
  {
    var q := t + [Completion(m)] + tail;
    if tail != [] {
      var shorter := tail[..|tail| - 1];
      assert q[..|q| - 1] == t + [Completion(m)] + shorter;
      LastCompletionOfTurn(t, m, shorter);
    }
  }

  /** The contents of the user turns of a transcript, in order. */
  function UserPrompts(q: seq<Message>): seq<string> {
    if q == [] then []
    else
      var last := q[|q| - 1];
      UserPrompts(q[..|q| - 1]) + (if last.Entry? && last.role == User then [last.content] else [])
  }

  lemma {:induction false} UserPromptsAppend(a: seq<Message>, b: seq<Message>)
    ensures UserPrompts(a + b) == UserPrompts(a) + UserPrompts(b)
    decreases |b|
  {
    if b == [] {
      assert a + b == a;
    } else {
      assert (a + b)[..|a + b| - 1] == a + b[..|b| - 1];
      UserPromptsAppend(a, b[..|b| - 1]);
    }
  }

  /** Taking `i` entries of the first `i + 1` is taking `i`. */
  lemma PrefixOfPrefix<T>(s: seq<T>, i: nat)
    requires i < |s|
    ensures s[..i + 1][..i] == s[..i]
  {
  }

  /** Taking `n` entries of all but the last is taking `n`. */
  lemma TakeOfFront<T>(s: seq<T>, n: nat)
    requires n < |s|
    ensures s[..|s| - 1][..n] == s[..n]
  {
  }

  /** Taking every entry gives the whole sequence. */
  lemma WholePrefix<T>(s: seq<T>, i: nat)
    requires i == |s|
    ensures s[..i] == s
  {
  }

  /** A non-empty sequence is its front followed by its last entry. */
  lemma LastSplit<T>(s: seq<T>)
    requires s != []
    ensures s[..|s| - 1] + [s[|s| - 1]] == s
  {
  }

  /** The conversation history: a list that the resolvers extend in place. */
  class Transcript {
    var messages: seq<Message>

    constructor (initial: seq<Message>)
      ensures messages == initial
    {
      messages := initial;
    }

    method Append(m: Message)
      modifies this
      ensures messages == old(messages) + [m]
    {
      messages := messages + [m];
    }
  }
}
