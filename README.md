# Local security auditor agent: tool dispatch and schema compilation

This project models the core of a chat agent. The agent starts three MCP
worker scripts (`computer_info_server.py`, `security_server.py`,
`maintenance_server.py`) and collects the tools each one lists. It then
answers a user by alternating between the chat model and those tools until
the model replies without asking for any tool.

Two parts of the source are modelled:

- **Schema compiler and MCP client** (`mcp_helper.dfy`, module `McpHelper`).
  `MCPClient.GetTools` turns each listed tool's `inputSchema` into a field
  table. Each field gets a Python annotation from a total type mapping and is
  either required or optional with default `None`. An args model is built
  only when the table is non-empty. Each tool gets a coroutine bound to its
  own name on its own worker. The client keeps the built list in
  `toolsCache` and refuses with `"Client not connected"` when no session is
  open. Python dicts are association lists with distinct keys (`PyDict`), so
  insertion order is kept.
- **Agent executor** (`agent_core.dfy`, module `AgentCore`).
  - `LangGraphAgentExecutor.Initialize` builds the tool catalogue from the
    workers that connected.
  - `RunGraph` runs the agent → tools → agent loop.
  - `ExecuteTools` answers every tool call of a turn with exactly one tool
    message, tagged with the call's id and name.
  - `Invoke` appends the user message, runs the loop, extends the
    append-only history, and turns the final content or the failure into the
    output text.

The pure specification of the loop is `Run`. `AgentRun` describes the
messages one run appends: assistant messages, each tool-requesting one
followed by one answer per call, ending with an assistant message that asks
for nothing.

The chat model, the workers and the MCP wire protocol are oracles passed in
as functions:

- `ChatModel` maps the tool catalogue and the history to a reply or an
  error text.
- `ToolRunner` maps a coroutine and its arguments to `str(output)` or an
  exception text.
- `connect` and `listTools` map a worker path to the handshake outcome and
  the `list_tools` result.

`PyText` holds the string operations the core relies on: `in` on strings,
`lower` and `join`. It also defines `split`, which the core does not call,
as the reference inverse of `join`. `Messages` holds the message kinds.

Behaviour of the code worth knowing:

- A tool's coroutine is called directly with the model's arguments. No
  argument validation happens before the call.
- Tool names are resolved first-match over the catalogue. A duplicate name
  is neither detected nor reported, so a later tool with the same name is
  unreachable (`ShadowedToolUnreachable`).
- The code sets no error flag on a tool message. A failure is only visible in the text:
  `Error: Tool X not found.` or `Error executing tool X: ...`.
- The calls of one turn run one after another, in order.
- `invoke` extends the history before it flattens the final content. If
  `'\n'.join` then raises, because a dict part's `'text'` is not a string,
  the output is an error text but the history already holds the whole run.
  Only a failure of the run itself leaves the history with just the user
  message added.

## Model

| member | source | states |
|---|---|---|
| `McpHelper.PythonType` | mcp_helper.py:49-60 | the annotation is not `str` exactly when `"type"` is one of integer/number/boolean/array/object, and is then the one named by it; anything else, including a missing or non-string `"type"`, maps to `str` |
| `McpHelper.PythonTypeOfSchemaName` | mcp_helper.py:49-60 | every annotation is produced by its own schema type name (the mapping inverts `SchemaTypeName`) |
| `McpHelper.CompileField` | mcp_helper.py:64-67 | a field carries the mapped annotation and is required iff its name is in `required`, otherwise defaults to `None` |
| `McpHelper.CompileFields` | mcp_helper.py:47-67 | the field table has exactly the property names, in order, each compiled from its own definition |
| `McpHelper.FieldTable` | mcp_helper.py:44-67 | a name has a field iff it is a property (names only in `required` create none); a field is required iff `required` is present and lists it |
| `McpHelper.InsertFresh` | mcp_helper.py:65-67 | assigning a key a dict does not hold appends it at the end |
| `McpHelper.CompileTool` | mcp_helper.py:41-86 | name and description copied; coroutine bound to the tool's own name on this worker; no args model iff `properties` is missing or empty, else a model named `<name>Args` over the compiled table |
| `McpHelper.CompileTools` | mcp_helper.py:41-87 | one tool per listed tool, in listing order |
| `McpHelper.MCPClient.constructor` | mcp_helper.py:13-17 | a new client has no session and an empty tool cache |
| `McpHelper.MCPClient.Connect` | mcp_helper.py:19-32 | succeeds iff spawn and handshake succeed; the session is set unless the spawn failed (a failed handshake leaves it set) |
| `McpHelper.MCPClient.BuildFields` | mcp_helper.py:47-67 | the loop over `properties.items()` builds exactly the compiled field table |
| `McpHelper.MCPClient.GetTools` | mcp_helper.py:34-90 | without a session: `Client not connected` and cache unchanged; a failed listing propagates with the cache unchanged; otherwise the compiled tools, which also become the cache |
| `AgentCore.FlatMapAppend` | agent_core.py:96-104 | collecting tools over two lists of workers is the concatenation of the two collections |
| `AgentCore.FailedServerContributesNothing` | agent_core.py:97-107 | a worker whose connection fails contributes no tools: the catalogue equals the one built without it |
| `AgentCore.AggregateOwners` | agent_core.py:97-109 | every catalogued tool is bound to its own name on a worker that connected |
| `AgentCore.FindTool` | agent_core.py:184 | `None` iff no tool has the name; otherwise the first tool with that name |
| `AgentCore.ShadowedToolUnreachable` | agent_core.py:184 | once a tool with the name occurs in a prefix of the list, nothing after that prefix (a later same-named tool included) affects the lookup |
| `AgentCore.Observe` | agent_core.py:153-199 | the message answering a call is a tool message carrying the call's id and name |
| `AgentCore.UnknownToolInvokesNothing` | agent_core.py:184-191 | for an unknown name no worker is consulted (the message is the same whatever the workers do) and its content is `Error: Tool <name> not found.` |
| `AgentCore.KnownToolCalledByName` | agent_core.py:184-199 | for a known name the owning worker is asked under the requested name; the content is its output or `Error executing tool <name>: <error>` |
| `AgentCore.Dispatch` | agent_core.py:148-201 | one tool message per call, in call order, tagged by id and name, each computed from its own call and the runner alone (the runner is a pure function) |
| `AgentCore.LangGraphAgentExecutor.ExecuteTools` | agent_core.py:148-201 | the loop over `tool_calls` yields exactly the dispatched messages, answering the calls one to one |
| `AgentCore.ShouldContinue` | agent_core.py:203-208 | `Continue` iff the assistant message has tool calls, `End` otherwise |
| `AgentCore.RunTranscript` | agent_core.py:121-139 | a successful run only appends to the history, and what it appends is a well-formed agent run |
| `AgentCore.AgentRunEnds` | agent_core.py:126-137 | an agent run ends with an assistant message without tool calls |
| `AgentCore.RunAnswers` | agent_core.py:121-139 | a successful run extends its input and ends with an assistant message that asks for no tools |
| `AgentCore.LangGraphAgentExecutor.RunGraph` | agent_core.py:121-139 | the agent/tools loop computes the graph run `Run` from the given history and step budget |
| `AgentCore.FirstNonStr` | agent_core.py:244 | `'\n'.join` fails at the first collected item that is not a string, and only if there is one |
| `AgentCore.FlattenRecoversParts` | agent_core.py:237-244 | list content flattens without error iff every collected text is a string; the output then splits on newlines back into the collected texts, in order, when there is at least one collected text and none contains a newline |
| `AgentCore.FlattenText` | agent_core.py:245-246 | string content is returned unchanged |
| `AgentCore.LangGraphAgentExecutor.FlattenContent` | agent_core.py:234-248 | the part-by-part loop computes the flattened output or the join error |
| `AgentCore.ErrorOutputClassifies` | agent_core.py:251-255 | the output reports a missing model iff the error text contains `404` or, lower-cased, `not found`; otherwise it starts with `An error occurred: `; it always ends with the error text |
| `PyText.ContainsIff` | agent_core.py:253 | the substring test holds iff the pattern occurs at some position |
| `PyText.SplitJoin` | agent_core.py:244 | joining at least one newline-free piece with a separator and splitting on it recovers the pieces (no pieces join to `""`, which splits to `[""]`) |
| `McpHelper.Insert` | mcp_helper.py:65-67 | computes dict assignment `fields[k] = v` on an insertion-ordered dict: an existing key keeps its position and takes the new value, a new key goes at the end (see `InsertFresh`) |
| `AgentCore.ServerTools` | agent_core.py:98-107 | computes one worker's contribution: its compiled listing when the connection and the listing both succeed, otherwise no tools |
| `AgentCore.Aggregate` | agent_core.py:96-109 | computes the catalogue: the contributions of the worker scripts concatenated in script order |
| `AgentCore.ConnectedPaths` | agent_core.py:97-103 | computes the workers appended to `mcp_clients`: those whose connection succeeded, in order |
| `AgentCore.Run` | agent_core.py:121-139 | computes the graph run: agent, then tools and agent again while the reply asks for tools; an LLM error or an exhausted step budget gives `Err` |
| `AgentCore.PartText` | agent_core.py:239-243 | computes what one list part contributes to `text_parts`: a string part itself, a dict part's `'text'` when present, otherwise nothing |
| `AgentCore.TextParts` | agent_core.py:237-243 | computes `text_parts`: the contributions of the parts, in order |
| `AgentCore.JoinTypeError` | agent_core.py:244 | computes the `TypeError` text `'\n'.join` raises for a non-string item, with its position and type name |
| `AgentCore.StrJoin` | agent_core.py:244 | computes `'\n'.join(items)`: the joined strings, or the `TypeError` text for the first non-string item |
| `AgentCore.Flatten` | agent_core.py:234-248 | computes the output text of the final content: a string as it is, list content through `text_parts` and the join, anything else as `str(content)` |
| `AgentCore.ErrorOutput` | agent_core.py:251-255 | computes the output for an exception: the model-not-found message when the error text holds `404` or, lower-cased, `not found`, otherwise `An error occurred: `, followed by the error text (see `ErrorOutputClassifies`) |
| `AgentCore.LangGraphAgentExecutor.constructor` | agent_core.py:79-84 | a new executor has no graph and no clients, and its history is the system message alone |
| `AgentCore.LangGraphAgentExecutor.Initialize` | agent_core.py:86-109 | the tools are the per-worker collections in worker order; the clients already held are kept and exactly the connected workers are appended to `mcp_clients`; the history is untouched |
| `AgentCore.LangGraphAgentExecutor.Respond` | agent_core.py:214-255 | the history gains the user message and, after a successful run, the whole run; the output is the flattened final content or its join error, or the classified error of a failed run |
| `AgentCore.LangGraphAgentExecutor.Invoke` | agent_core.py:210-255 | initialises once: on first use the tools are the collected catalogue and the clients already held are kept and exactly the connected workers are appended, later calls leave both unchanged. On a failed run the history is the old history plus the user message, and the output is the classified error. Otherwise the history is the whole run, with the old history plus the user message as a prefix and a well-formed agent run after it, and the output is the flattened final content or its join error |

## Left out

- Spawning worker processes, the stdio transport, the `initialize` handshake, and the `list_tools` and `call_tool` exchanges (mcp_helper.py:19-32, 38, 77) are process and IPC input/output. Their outcomes are the oracle parameters `ConnectOutcome`, `listing` and `ToolRunner`.
- `cleanup` and the `AsyncExitStack` teardown (mcp_helper.py:92-93, agent_core.py:257-259) are process teardown. A worker whose handshake fails never joins `mcp_clients`, so `cleanup` never closes it; the model records which workers join but has no processes.
- `os.path.abspath` depends on the working directory. Worker paths are the bare script names.
- The Gemini client, its construction and `bind_tools` (agent_core.py:111-118, 142-146) are an external service. The model is the `ChatModel` oracle, given the catalogue and the history. A failure while constructing the client, which would escape `invoke` before the user message is added, is not modelled.
- LangGraph's recursion limit is the `steps` budget, where every node run costs one step. The default value (25) and LangGraph's exact counting and error text are not modelled; `RecursionLimitError` stands in for that text.
- `create_model` validation and coercion (mcp_helper.py:71) belong to Pydantic. Only the field table and the model name are modelled. A schema that Pydantic refuses, which would make `get_tools` raise, is not modelled.
- `StructuredTool.from_function` (mcp_helper.py:80-86) is modelled as a record of name, description, args model and coroutine. LangChain's own checks on a missing description are not modelled.
- `MCPClient.GetTools`: schema shapes on which `get_tools` raises are not representable. These are `"properties": null` (`.items()` on `None`, mcp_helper.py:44, 48), a property definition that is not a dict such as the boolean schema `true` (`.get` on it, mcp_helper.py:49) and `"required": null` with properties present (`in None`, mcp_helper.py:64). In the code the worker has then joined `mcp_clients` but adds no tools (agent_core.py:102-107); the model compiles every successful listing.
- The `ChatModel` and `ToolRunner` oracles are deterministic pure functions: identical calls get identical answers. Real tools report changing system state (for instance the computer-information worker), and one call's side effects on a later call are not captured.
- A tool call is assumed to carry `name`, `args` and `id`. The `KeyError` a malformed call would raise outside the `try` is not modelled.
- `log_callback` messages are advisory only.
- `create_agent`, `ErrorAgent` and `load_dotenv` are configuration loading.
- `test_connection` is a manual smoke test.
- The system prompt text is a parameter of the constructor.
- Async scheduling inside one call is not modelled, because every await within one `invoke` runs in sequence.
- `LangGraphAgentExecutor.Invoke`: the model assumes only one `invoke` runs at a time. The web front end shares one executor between several listeners (app.py:17-21, 42, 110-120), and nothing in the code makes their calls wait for each other. If two calls overlap at an await (agent_core.py:212, 224), two things can go wrong. First, the slice `final_state["messages"][len(self.conversation_history):]` (agent_core.py:230) is taken after the other call has appended its user message, so it drops the first message(s) of the run, possibly the assistant message that the following tool messages answer. Second, two first calls can both pass `if not self.app` (agent_core.py:211) and connect every worker twice.
- `PyText.Lower` folds only `A`–`Z`, whereas Python's `str.lower` also maps non-ASCII letters.
- `app.py` and the worker scripts are not part of this model.
