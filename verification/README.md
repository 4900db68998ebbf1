# Tool-call resolution for the llama-stack demonstration scripts

This project models the original logic of the ramalama-stack MCP demonstration scripts. That logic is the resolver that answers a model's tool requests, plus the small helpers around it.

- **`FavoriteTools`** (`favorite_tools.dfy`, from `tests/test-tools.py`) models the synchronous resolver.
  - It has two string-matching tools, `favorite_color_tool` and `favorite_hockey_tool`, and the registry `funcs` that names them.
  - `handle_response` appends the completion message to the transcript.
  - It then answers each tool request, in order, with one `tool` message. An unknown tool gets the text "Invalid tool called.".
  - It then asks the model again with the extended transcript and handles that reply the same way. It stops when a completion has no tool requests.
  - Exceptions are not caught here. A handler given None arguments raises, and so does reading an absent call id or a failing inference. Each one escapes.
- **`FavoriteDeclarations`** (`declarations.dfy`) holds the tool list the script declares to the model (`available_tools`), written as `ToolSchema` declarations. It relates that list to the registry.
- **`LocalMcp`** (`local_mcp.dfy`, from `test_mcp/test-local-mcp.py`) models the MCP resolver and the prompt loop of `main`.
  - Tool requests are answered through an MCP session.
  - Each text content item of a result becomes one `tool` message, up to the first item that is not text. That item ends the loop with a failure message, and no later item gets a message.
  - When the call id is absent, no item gets a message. A non-empty result then gives the call a single failure message instead.
  - A tool call that raises becomes a single "tool call failed: …" message. Its call id is "unknown" when the id is absent.
  - A failing follow-up inference becomes the returned text "Error processing tool results: …".
  - The prompt loop seeds the transcript with the system instructions. For each prompt, it appends the user turn, asks the model and resolves the response. When that first inference fails, it skips to the next prompt.
- **`ToolSchema`** (`tool_schema.dfy`, from the conversion loop in `main` of `test_mcp/test-local-mcp.py`) models how listed MCP tools become llama-stack tool declarations.
  - Each parameter's `type` key is renamed `param_type`.
  - A parameter named in the schema's `required` list gets `required: True`.
- **`Chat`** (`chat.dfy`) holds the shared vocabulary:
  - messages, tool calls and completion messages;
  - the `Transcript` class, which stands for the `messages` list the resolvers append to in place;
  - the `Outcome` of a resolution.

The inference service and the MCP session's `call_tool` are external. They are parameters of the model:

- `Inference` maps a transcript to a completion or a failure.
- `Session` maps a tool name and arguments to content items or a failure.

Each resolver is written twice:

- **`Resolve`** is a specification function. It returns the final transcript, every transcript sent to the model, and the outcome.
  - It takes the loop over one completion's tool requests as a parameter, an `Answerer`. The script's own loop is `ResolveCalls`, or `SessionAnswerer(session)` for the MCP variant.
  - This is how the lemmas about the recursion are stated once, independently of the way requests are answered.
- **`HandleResponse`** is the recursive method that updates the caller's `Transcript` in place, as the source does. It is proved to leave the transcript and return the outcome that `Resolve` prescribes.
  - Its tool branch is a separate method, `FollowUp`, which answers the requests with the `for` loop `AnswerCalls`, asks the model again and recurses.

The source recurses with no depth bound. Both forms take a `fuel` bound on the number of follow-up inferences.

The two resolvers handle failures differently, and the model keeps each one as written:

- The synchronous resolver does not recover any failure; it propagates.
- The MCP resolver recovers from a failing follow-up inference by returning an error text.
- The MCP resolver emits one tool message per content item, not one per request. A request with empty content gets none. A partial result can be followed by a failure message.

## Model

| member | source | states |
|---|---|---|
| `FavoriteTools.FavoriteColor` | tests/test-tools.py:30-37 | returns the Ottawa/black text exactly when city is Ottawa and country is Canada, and the Montreal/red text exactly for Montreal/Canada. Every other case gets the not-recognized text, missing keys included |
| `FavoriteTools.FavoriteHockeyTeam` | tests/test-tools.py:39-46 | returns the Senators text exactly for Ottawa/Canada and the Canadiens text exactly for Montreal/Canada. Every other case gets the not-recognized text |
| `FavoriteTools.Lookup` | tests/test-tools.py:48-51 | the registry maps `favorite_color_tool` to the color handler and `favorite_hockey_tool` to the hockey handler. Every other name has no handler |
| `FavoriteDeclarations.DeclaredToolsAreRegistered` | tests/test-tools.py:10-51 | every tool declared to the model has a registered handler. Each declares exactly the city and country parameters, both required strings |
| `FavoriteTools.Invoke` | tests/test-tools.py:66-69 | calling a registered handler: the color handler's text or the hockey handler's text for the given arguments (no contract of its own; `ToolMessage` states what the loop gets from it) |
| `FavoriteTools.ToolMessage` | tests/test-tools.py:64-78 | one loop iteration appends a `tool` message with the request's call id and tool name. The content is "Invalid tool called." for an unknown tool and the handler's text otherwise. It raises exactly when a known handler gets None arguments or the call id is absent |
| `FavoriteTools.ToolMessageError` | tests/test-tools.py:66-76 | the exception an iteration raises is `'NoneType' object has no attribute 'get'` when a known handler gets None arguments, and otherwise the missing `call_id` attribute of the tool call |
| `FavoriteTools.ResolveCalls` | tests/test-tools.py:64-78 | the loop over one completion's requests, stopping at the first exception (no contract of its own; the two lemmas below state what it does) |
| `FavoriteTools.ResolveCallsInOrder` | tests/test-tools.py:64-78 | the loop answers requests in order, one message each, until the first one that raises, and that request's exception is the one reported. When it completes, it has one message per request |
| `FavoriteTools.ResolveCallsCompletes` | tests/test-tools.py:64-78 | the loop runs to completion exactly when no request raises |
| `FavoriteTools.CompletedCallsAnswered` | tests/test-tools.py:64-78 | a loop that completes has appended, for each request in order, a `tool` message carrying that request's call id and tool name |
| `FavoriteTools.AnswerCalls` | tests/test-tools.py:64-78 | the `for` loop appends exactly the messages of the requests answered before the first exception, and reports that exception |
| `FavoriteTools.Resolve` | tests/test-tools.py:60-88 | `handle_response` with the loop over requests as a parameter: the final transcript, every transcript sent to the model, and the outcome (no contract of its own; the lemmas below state its properties) |
| `FavoriteTools.ResolveTerminal` | tests/test-tools.py:60-63 | a completion without tool requests appends exactly itself, returns its content and asks the model nothing |
| `FavoriteTools.ResolveStops` | tests/test-tools.py:63-86 | a tool request that raises, or a failing follow-up inference, ends the resolution with that exception escaping. The transcript stays as the turn left it |
| `FavoriteTools.ResolveContinues` | tests/test-tools.py:80-86 | after a turn whose requests are all answered, the resolution continues from the model's reply to the extended transcript, with that transcript |
| `FavoriteTools.ResolveAppendOnly` | tests/test-tools.py:60-88 | the caller's transcript is kept intact as a prefix, followed by the completion message. Every transcript sent to the model is a prefix of the final one, each longer than the one before |
| `FavoriteTools.ResolveFollowUpsReady` | tests/test-tools.py:60-86 | when answering appends no assistant turn, every follow-up inference sees a transcript whose latest assistant turn requests tools. That turn is followed by exactly the completed answers to them |
| `FavoriteTools.ScriptFollowUpsReady` | tests/test-tools.py:64-86 | with the script's loop, every follow-up inference sees such a transcript |
| `FavoriteTools.FollowUpAnswersEveryCall` | tests/test-tools.py:64-86 | such a transcript, with the script's loop, holds exactly one tool message per request of the latest assistant turn, in request order. Each is the request's successful answer and carries its call id and tool name |
| `FavoriteTools.ScriptFollowUpsAnswered` | tests/test-tools.py:60-86 | every transcript the script sends to the model on a follow-up answers every request of its latest assistant turn in that way |
| `FavoriteTools.ResolveAnswerIsFinalTurn` | tests/test-tools.py:60-88 | a returned answer is the content of the last transcript entry, an assistant turn without tool requests |
| `FavoriteTools.HandleResponse` | tests/test-tools.py:60-88 | the recursive method leaves the transcript and returns the outcome that `Resolve` prescribes for the script's loop |
| `FavoriteTools.FollowUp` | tests/test-tools.py:63-86 | the tool branch leaves the transcript and returns the outcome that `Resolve` prescribes for a completion requesting tools |
| `LocalMcp.ArgumentsOf` | test_mcp/test-local-mcp.py:66 | None arguments are passed as the empty mapping, and present ones are passed unchanged |
| `LocalMcp.FailureMessage` | test_mcp/test-local-mcp.py:80-88 | the `except` branch's message: "tool call failed: e", with the call id or "unknown" (no contract of its own; `CallMessagesSpec` states it) |
| `LocalMcp.ItemMessage` | test_mcp/test-local-mcp.py:70-79 | a content item gives a `tool` message with its text, the call id and the tool name exactly when it is a text item and the call id is present |
| `LocalMcp.ItemMessages` | test_mcp/test-local-mcp.py:70-79 | the loop over content items, stopping at the first attribute error (no contract of its own; the two lemmas below state what it does) |
| `LocalMcp.ItemMessagesInOrder` | test_mcp/test-local-mcp.py:70-79 | content items become messages in item order until the first one that raises. That item's error is the one reported. With no error, there is one message per item |
| `LocalMcp.ItemMessagesRaise` | test_mcp/test-local-mcp.py:70-79 | the item loop raises exactly when the content is non-empty and some item is not text or the call id is absent |
| `LocalMcp.AppendItems` | test_mcp/test-local-mcp.py:70-79 | the inner `for` loop appends the item messages up to the first attribute error and reports that error |
| `LocalMcp.CallMessages` | test_mcp/test-local-mcp.py:63-88 | the messages the `try` for one call appends, its `except` branch included (no contract of its own; `CallMessagesSpec` states them) |
| `LocalMcp.CallMessagesSpec` | test_mcp/test-local-mcp.py:63-88 | every message for a call names the call's tool and carries its call id, or "unknown" when the id is absent. A raising call gives exactly one "tool call failed: e" message. An all-text result with a present call id gives one message per item, in order. Empty content gives none |
| `LocalMcp.BrokenResultMessages` | test_mcp/test-local-mcp.py:63-88 | a result broken by a non-text item or an absent call id gives the leading text items' messages, then one failure message carrying the attribute error of the breaking item |
| `LocalMcp.AnswerCall` | test_mcp/test-local-mcp.py:63-88 | the `try` for one call with its `except` branch appends exactly the call's messages |
| `LocalMcp.AnswerCalls` | test_mcp/test-local-mcp.py:58-88 | the outer `for` loop appends exactly the messages of all calls, in call order, and never raises |
| `LocalMcp.ResolveCalls` | test_mcp/test-local-mcp.py:58-88 | the outer loop over the requests, concatenating each call's messages (no contract of its own; `ResolveCallsAreToolResults` and `AnswerCalls` state it) |
| `LocalMcp.ResolveCallsPairing` | test_mcp/test-local-mcp.py:58-88 | every message a turn appends is a `tool` message that carries the tool name of one of the requests and that same request's call id, or "unknown" when its id is absent |
| `LocalMcp.ResolveCallsAreToolResults` | test_mcp/test-local-mcp.py:58-88 | every message a turn appends is a `tool` message naming one of the requested tools |
| `LocalMcp.SessionAnswersAreToolResults` | test_mcp/test-local-mcp.py:58-88 | the session's loop appends only tool messages, and so no assistant turn |
| `LocalMcp.Resolve` | test_mcp/test-local-mcp.py:37-109 | `handle_response` with the loop over requests as a parameter: the final transcript, every transcript sent to the model, and the outcome (no contract of its own; the lemmas below state its properties) |
| `LocalMcp.ResolveTerminal` | test_mcp/test-local-mcp.py:44-57 | tool calls that are absent, None or empty all take the terminal branch. The turn is appended and its content returned, with no tool call and no inference |
| `LocalMcp.ResolveStops` | test_mcp/test-local-mcp.py:90-105 | a failing follow-up inference ends the resolution with "Error processing tool results: e" as the returned text. The transcript stays as the turn left it, and that transcript is the last one sent to the model |
| `LocalMcp.ResolveContinues` | test_mcp/test-local-mcp.py:90-102 | after the tool turn, the resolution continues from the model's reply to the extended transcript, with that transcript |
| `LocalMcp.ResolveNeverRaises` | test_mcp/test-local-mcp.py:37-109 | no exception escapes. A returned text is either the content of the final assistant turn, which has no tool requests, or "Error processing tool results: e" for the last follow-up, which failed with e |
| `LocalMcp.ResolveAppendOnly` | test_mcp/test-local-mcp.py:42-109 | the caller's transcript is kept intact as a prefix, followed by the assistant turn. Every transcript sent to the model is a prefix of the final one, each longer than the one before |
| `LocalMcp.ResolveAddsNoPrompt` | test_mcp/test-local-mcp.py:37-109 | when answering adds only tool messages, resolution appends no user turn |
| `LocalMcp.ResolveKeepsOpening` | test_mcp/test-local-mcp.py:37-109 | resolution keeps the first entry of the transcript and its user turns |
| `LocalMcp.ResolveFollowUpsReady` | test_mcp/test-local-mcp.py:58-102 | when answering appends no assistant turn, every follow-up inference sees a transcript whose latest assistant turn requests tools. That turn is followed by exactly the messages of answering them |
| `LocalMcp.SessionFollowUpsReady` | test_mcp/test-local-mcp.py:58-102 | with the session's loop, every follow-up inference sees such a transcript |
| `LocalMcp.FollowUpAnswersCalls` | test_mcp/test-local-mcp.py:58-97 | in such a transcript, the messages after the latest assistant turn are the messages of its calls, call after call. Each one is a tool message naming a requested tool |
| `LocalMcp.SessionFollowUpsAnswered` | test_mcp/test-local-mcp.py:58-102 | every transcript the script sends to the model on a follow-up ends with an assistant turn requesting tools, followed by exactly the messages of its calls, each a tool message naming a requested tool |
| `LocalMcp.HandleResponse` | test_mcp/test-local-mcp.py:37-109 | the recursive method leaves the transcript and returns the outcome that `Resolve` prescribes for the session's loop |
| `LocalMcp.FollowUp` | test_mcp/test-local-mcp.py:58-105 | the tool branch leaves the transcript and returns the outcome that `Resolve` prescribes for a completion requesting tools |
| `LocalMcp.Converse` | test_mcp/test-local-mcp.py:159-190 | the prompt loop as a function of the instructions and prompts: the transcript and one outcome per prompt (no contract of its own; the lemmas below state its properties) |
| `LocalMcp.ConversePrompt` | test_mcp/test-local-mcp.py:170-190 | one more prompt keeps the opening entry, adds exactly its own user turn and one outcome. The user turn stays even when the prompt is skipped |
| `LocalMcp.ConversePromptHistory` | test_mcp/test-local-mcp.py:170-190 | a prompt's first inference is asked with the earlier transcript plus its user turn. If it fails, that is the whole new transcript and the prompt's outcome is the raised error. Otherwise the reply is appended next and resolved, and the outcome is not a raise. Earlier outcomes are kept |
| `LocalMcp.ConverseKeepsHistory` | test_mcp/test-local-mcp.py:160-190 | the history is kept across prompts: the transcript and outcomes after any first n prompts are prefixes of the final ones |
| `LocalMcp.ConverseShape` | test_mcp/test-local-mcp.py:159-190 | the transcript starts with the system instructions. Its user turns are exactly the prompts, in order, and there is one outcome per prompt |
| `LocalMcp.RunPrompts` | test_mcp/test-local-mcp.py:159-190 | the prompt loop builds a fresh transcript and the per-prompt outcomes that the conversation definition prescribes |
| `ToolSchema.PropertiesOf` | test_mcp/test-local-mcp.py:140-142 | the schema's `properties`, or the empty mapping when absent (no contract of its own; `ConvertTool` states it) |
| `ToolSchema.IsRequired` | test_mcp/test-local-mcp.py:149-152 | a parameter is required when the schema has a `required` list that names it (no contract of its own; `ConvertParam` states its use) |
| `ToolSchema.ConvertParam` | test_mcp/test-local-mcp.py:145-153 | the result has no `type` key, and a former `type` value is now under `param_type`. `required` is True when the name is in the schema's required list, and is left as it was otherwise. Every other key is unchanged |
| `ToolSchema.IsConversion` | test_mcp/test-local-mcp.py:137-153 | the declaration built from a tool: same name and description, one parameter per listed property, each converted (no contract of its own; `ConvertTool` and `ConvertTools` use it) |
| `ToolSchema.ConvertTool` | test_mcp/test-local-mcp.py:136-153 | the declaration keeps the tool's name and description. It has one parameter per listed property (none when `properties` is absent), and each parameter is converted |
| `ToolSchema.ConvertTools` | test_mcp/test-local-mcp.py:135-155 | `available_tools` has one declaration per listed tool, in listing order, each the conversion of its tool |
| `Chat.CallsOf` | tests/test-tools.py:63-64 | the requested tool calls, none when the attribute is None (no contract of its own) |
| `Chat.HasToolCalls` | test_mcp/test-local-mcp.py:53-56 | the branch condition of both resolvers: tool calls present, not None and not empty (no contract of its own; `ResolveTerminal` states the branch) |
| `Chat.Transcript.Append` | tests/test-tools.py:61 | `messages.append`: the list gains exactly the given message at its end |

## Left out

- Creating the clients and the module-level client are I/O, and so is reading `instructions.txt`, `model.txt` and `prompts.txt`. All printing and logging is I/O too. The instructions and the prompts are parameters instead.
- asyncio, the stdio transport, the session set-up and `run_main` are process plumbing. The MCP variant is modelled as sequential code.
- The inference call and `call_tool` are modelled as deterministic functions of their inputs.
  - A session whose answers depend on earlier calls, such as the file-appending robot tools, is not captured.
  - The declared tool list passed with every inference is fixed for a run, so it is folded into the `Inference` parameter.
- `FavoriteTools.Resolve`, `FavoriteTools.HandleResponse`, `LocalMcp.Resolve`, `LocalMcp.HandleResponse`: the source has no bound on follow-up inferences. The model stops with `OutOfFuel` after `fuel` of them instead of making the next call. Python's recursion limit is not modelled.
- The synchronous chat loop at tests/test-tools.py:105-117 is a driver around the resolver and is not modelled. The `for j in range(1)` wrapper of the MCP prompt loop is modelled as its single conversation.
- Only the `AttributeError`s the code itself can trigger from a tool call are modelled: None arguments given to a handler, an absent call id, and a non-text content item. Other Python failures are not, for example:
  - arguments given as a JSON string;
  - a parameter schema that is not an object;
  - a `properties` entry set to null.
- A call id attribute that is present but set to None is not modelled. The source would copy None into the tool message; in the model a call id is either a string or absent.
- A request lacking the `arguments` attribute altogether is not modelled. `arguments` is either a mapping or None.
- Argument values are strings. Message content is a string, so `str(content)` is the identity. A multi-part content value is not modelled.
- `FavoriteTools.Resolve`, `FavoriteTools.HandleResponse`: a completion message lacking the `tool_calls` attribute altogether is not modelled. tests/test-tools.py:63 reads the attribute directly, so there it would raise an `AttributeError`; in the model an absent value is `None`, which takes the terminal branch.
- In the MCP variant, an attribute absent from the completion message and one set to None are the same `None`, which is what the `getattr` defaults at test_mcp/test-local-mcp.py:47-48 and the `hasattr` test make of them. The dictionary the MCP variant appends for the assistant turn carries exactly the completion message's role, content, stop reason and tool calls. It is therefore the same `Completion` value as the object the synchronous variant appends.
- `ToolSchema.ConvertTool` returns a new value. In the source, the parameter dictionaries are updated in place and are shared with the session's tool list, so that list is altered as a side effect. This aliasing is not modelled, and neither is dictionary key order.
- `ToolSchema.ConvertParam`: "required exactly when listed" holds only for parameters without their own `required` key. A pre-existing `required` entry of an unlisted parameter is kept as it was, and the contract says so.
- The other scripts are not modelled: RAG ingestion, agent and toolgroup registration, and the example MCP servers. They delegate everything to external services.
