# ask-human tool server — Dafny model

The `ask-human` server is a protocol server that advertises a single tool, `ask_human`.
A client can list the tools and call one by name with an argument map. When the
request metadata carries a progress token, the server sends progress notifications
for the call. It then returns one text item or raises an error.

This project models the server's three pieces of logic as pure functions:

- the `ask_human` formatter, which is a stand-in for a human: a fixed greeting followed by the question;
- the `list_tools` catalogue: one descriptor with a name, a description and an input schema;
- the `call_tool` dispatch. Its two awaited progress sends become appends to an outbound
  trace. A call is therefore a function from (tool name, arguments, request metadata) to a
  `Reply`: the notifications sent, in order, then exactly one `Outcome`. The outcome is
  `Ok(content)` or `Err(fault)`, and a datatype cannot be both, so every call has exactly one.

Files:

- `wrappers.dfy` holds `Option`.
- `mcp_types.dfy` holds the protocol values: tokens and their Python truthiness, metadata,
  progress notifications, text items, tool descriptors, object schemas, and the
  `ProgressSequence` well-formedness predicate.
- `strings.dfy` holds `StripPrefix`, a character-by-character inverse of prepending a text.
- `server.dfy` holds the server (module `AskHumanServer`).
- `server_properties.dfy` holds the lemmas that relate the parts (module `AskHumanServerProperties`).

Modelling choices:

- Progress tokens are strings or integers, as on the protocol's wire. Python truthiness is
  explicit: `""` and `0` are falsy, and so is an absent token.
- Request metadata is `Option<Meta>`. Present metadata is truthy.
- `progress_token` is bound by a walrus inside an `and`. It stays `None` when the metadata is
  absent. Otherwise it takes the metadata's token, which may itself be `None`.
- The two `if`s of the source are modelled as written, each with its own condition.
  `ProgressTrace` proves that they agree: both reports are sent, or neither is.
- The progress values are the literal constants `0.5` and `1.0`, modelled as `real`.
- The source's exceptions become `Fault` values: `ValueError("Unknown tool: " + name)` and
  `KeyError("question")`. Both are raised before any notification is sent.
- `list_tools` takes no arguments and has no state. As a pure function it returns the same
  sequence on every call, so repeated listings are identical by construction.

What `call_tool` does, and does not do, at its edges:

- There is no argument validator. The only check is the dictionary lookup of `question`,
  which raises `KeyError`. No types are checked and extra fields are ignored.
- The answer is computed before the first notification is sent.
- The handler cannot fail. There is no failure path that sends only the first notification.
- A falsy token such as `""` or `0` suppresses notifications just as an absent token does.

## Model

| member | source | states |
|---|---|---|
| AskHumanServer.ParseToolName | src/ask-human/src/mcp_server_ask_human/server.py:18-45 | the `match name` / `case HumanTools.ASK_HUMAN` comparison (lines 44-45) against the enumeration (lines 18-19): a name resolves to an enumeration member only if that member's value is the name, and a name that is no member's value resolves to none |
| AskHumanServer.AskHuman | src/ask-human/src/mcp_server_ask_human/server.py:22-23 | the reply is the greeting followed by the question: stripping the greeting gives back the question, and the length is the greeting's plus the question's |
| AskHumanServer.ListTools | src/ask-human/src/mcp_server_ask_human/server.py:31-39 | exactly one descriptor: named `ask_human`, described "Ask any question to real human", with the schema of the argument model; names are unique and every listed name is one the dispatch accepts |
| AskHumanServer.BoundToken | src/ask-human/src/mcp_server_ask_human/server.py:47-49 | the token bound by the walrus is truthy if and only if the metadata is present and carries a truthy token, the condition of the first `if` |
| AskHumanServer.ProgressTrace | src/ask-human/src/mcp_server_ask_human/server.py:47-64 | zero or two notifications; two exactly when metadata is present with a truthy token; these carry the request's token, stay within the total, strictly increase (0.5 then 1.0) and end at the total |
| AskHumanServer.AnswerText | src/ask-human/src/mcp_server_ask_human/server.py:66-69 | the result text is the header line `Human answer:` followed by the answer, which stripping the header gives back |
| AskHumanServer.CallTool | src/ask-human/src/mcp_server_ask_human/server.py:42-71 | an unknown name gives `ValueError("Unknown tool: " + name)` and a missing `question` gives `KeyError`, both with an empty trace; success holds exactly when the tool is known and the argument present; notifications occur only on success, zero or two, two exactly with a usable token, well-formed; success is one `text` item that reads back as the answer |
| AskHumanServerProperties.AskHumanEndsWithQuestion | src/ask-human/src/mcp_server_ask_human/server.py:22-23 | the formatter's output starts with the greeting and ends with the question; equal outputs come from equal questions |
| AskHumanServerProperties.CatalogueMatchesDispatch | src/ask-human/src/mcp_server_ask_human/server.py:31-71 | a name is listed by `list_tools` if and only if `call_tool` does not reject it as an unknown tool |
| AskHumanServerProperties.SchemaMatchesLookup | src/ask-human/src/mcp_server_ask_human/server.py:15-46 | for the listed tool, the arguments carry every field its schema requires if and only if the call succeeds; otherwise the call fails with `KeyError("question")` and sends nothing |
| AskHumanServerProperties.AnswerCarriesQuestion | src/ask-human/src/mcp_server_ask_human/server.py:66-69 | on success the text starts with `Human answer:`, ends with the question, and a client that strips the header and greeting reads back exactly the question |
| AskHumanServerProperties.TwoPhaseTrace | src/ask-human/src/mcp_server_ask_human/server.py:49-64 | a successful call with a usable token sends exactly `(token, 0.5, 1.0)` then `(token, 1.0, 1.0)` |
| AskHumanServerProperties.ProgressTraceShape | src/ask-human/src/mcp_server_ask_human/server.py:49-64 | a usable token yields the half-way report followed by the completion report, for that token |
| AskHumanServerProperties.OutcomeIndependentOfMeta | src/ask-human/src/mcp_server_ask_human/server.py:44-71 | two calls that differ only in their metadata end with the same outcome; the metadata decides only the notifications |

## Left out

- CallTool: a progress send that raises is not modelled. Sends are appends that cannot fail, so "notifications only on success" and "zero or two notifications" assume both sends succeed; in the server, a send on a broken stream raises out of `call_tool`, and if the second send raises, one notification has gone out and there is no result.

- The stdio transport, `server.run`, the initialization options and the asyncio entry point (lines 73-81). These are I/O over a library that is not part of this model.
- The `Server` object, its decorators and the request context and session (lines 29, 31, 41, 43). Only their effect is kept: a progress notification appended to the trace.
- How the library turns a raised exception into a protocol error response. That is library code that is not part of this model, so the model stops at the `Fault` value.
- Logging (line 27) and the unused `sleep` import (line 3).
- Schema generation by the model library (line 37). The schema is a constant built from the argument model's one declared field, `question: str`, which has no default and so is required. The library's exact JSON rendering is not modelled.
- Argument values are modelled as strings. The source formats any JSON value with Python's `str()`, and that rendering of non-string values is not modelled.
- Cancellation, a handler failure between the two notifications, and a real solicitation of a human (the TODO at line 57). The source has none of these.
- Floating point: the progress values are the literal constants 0.5 and 1.0, exactly representable, and are modelled as reals.
