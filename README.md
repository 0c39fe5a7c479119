# llmexp-chatbot: the deterministic core of the chat handlers

The chatbot (`app.py`) connects a Chainlit chat UI to an Azure OpenAI assistant and to remote MCP
tool servers. Almost all of it forwards calls to those SDKs. This project models the small amount of
logic the handlers themselves decide, and proves what it guarantees:

- **Tool registry** (`registry.dfy`): the per-session `mcp_tools` dict. It maps a connection name to
  the tools that connection listed. It is an insertion-ordered sequence of entries with distinct
  names, held by a `ToolRegistry` object that `on_mcp_connect` updates in place. Re-registering a
  name keeps its position; a new name goes to the end.
- **Tool-list assembly** (`tool_list.dfy`): what `main` sends as `tools=`. It flattens every
  connection's tools in registry order and wraps each one as a function entry. For a logged-in user
  outside `@interop-tokyo.net` and `@g.ecc.u-tokyo.ac.jp`, it removes the device-configuring tool
  `set_config_commands_and_commit_or_save`. It then appends `file_search` when that is missing.
- **Dispatch** (`dispatch.dfy`): the `EventHandler`'s run and thread ids, and one
  `requires_action` round. Each function-type tool call is routed to the first connection that lists
  its name and answered with one output keyed by the call id. The tool invocation is a function
  parameter.
- **Result conversion** (`tool_invocation.dfy`): `call_tool` turns MCP content into the list that
  becomes the output. Text becomes a string and an image becomes an `image_url` data URL. An
  unsupported item or a raised exception ends the list with one error item. A missing session gives
  the plain message `no MCP session for <name>`.
- **Mock login** (`auth.dfy`): `validate_password` over the hard-coded user map, and the user
  `auth_callback` builds from it.
- **Predefined servers** (`server_config.dfy`): `MCP_SERVER_*` environment entries split into
  `NAME@URL`.

`wrappers.dfy`, `strings.dfy`, `sequences.dfy` and `chat_types.dfy` hold `Option`, the string helpers
(`startswith`, `endswith`, `split`), the subsequence relation used to state that filters keep order,
and the shared `Tool` and `User` values.

## Model

| member | source | states |
|---|---|---|
| `Registry.Put` | app.py:293-294 | after `mcp_tools[name] = tools` the lookup of `name` gives the new list, every other name's lookup is unchanged, every entry is the new one or an old one, and distinct keys stay distinct |
| `Registry.PutKeepsPosition` | app.py:294 | assigning to an existing connection name replaces its entry at the same position; order is unchanged |
| `Registry.PutAppendsNew` | app.py:294 | assigning to a new connection name appends its entry at the end |
| `Registry.ServerForIsFirstMatch` | app.py:147-152 | the server lookup is `None` exactly when no connection lists the function name; otherwise it is the name of the first connection, in dict order, that lists it |
| `Registry.ToolRegistry.constructor` | app.py:293 | a session without connections has an empty `mcp_tools` |
| `Registry.ToolRegistry.Register` | app.py:293-301 | `on_mcp_connect` stores the connection's tools under its name, leaves every other connection's entry alone and keeps the keys distinct |
| `Dispatch.FindServer` | app.py:147-152 | the loop with `break` returns the first connection listing the function, or `None` |
| `Dispatch.FunctionCalls` | app.py:141-143 | the calls answered are exactly the function calls among the run's tool calls: each kept call is a function call from the input, and every function call of the input is kept |
| `Dispatch.FunctionCallsKeepsCalls` | app.py:141-143 | each function call is answered as many times as it occurs, and no other call is answered |
| `Dispatch.FunctionCallsKeepsOrder` | app.py:141-143 | the answered calls are a subsequence of `tool_calls`: their order is kept |
| `Dispatch.EventHandler.constructor` | app.py:76-81 | a new handler starts with the two placeholder ids |
| `Dispatch.EventHandler.OnRunStepCreated` | app.py:88-90 | a created run step sets the handler's run and thread ids |
| `Dispatch.EventHandler.CollectToolOutputs` | app.py:139-162 | one output per function-type call, in the order of `tool_calls`; each output carries that call's id and the response for the server found by name; other calls are skipped |
| `ToolList.Flatten` | app.py:215-216 | the flattened list's length is the sum of the per-connection lengths |
| `ToolList.FlattenAppend` | app.py:215-216 | flattening keeps connection order: it distributes over concatenation |
| `ToolList.FlattenMembership` | app.py:215-216 | a tool is in the flattened list iff some connection's list contains it |
| `ToolList.ToolListsMatchLookup` | app.py:226-227 | the `i`-th per-connection list is exactly what `mcp_tools` holds under the `i`-th connection name, so the lists come in registry order, one per connection |
| `ToolList.WrapRoundTrip` | app.py:228 | unwrapping the function entries gives back the tools, and no wrapped entry is `file_search` |
| `ToolList.RemoveConfigTool` | app.py:244-251 | no entry of the filtered list is the configuring tool, and every entry comes from the input |
| `ToolList.RemoveConfigToolKeepsOrder` | app.py:244-251 | the filtered list is a subsequence of the input: relative order is kept |
| `ToolList.RemoveConfigToolKeepsOthers` | app.py:244-251 | every entry other than the configuring tool keeps its number of occurrences |
| `ToolList.RemoveConfigToolIdentity` | app.py:244-251 | a list without the configuring tool is returned unchanged |
| `ToolList.EnsureFileSearch` | app.py:254-256 | the result contains `file_search` and starts with the whole input; one entry is appended if `file_search` was absent, none if it was present |
| `ToolList.AssembleTools` | app.py:226-256 | the assembled list ends with `file_search`, holds it exactly once, and every earlier entry is a function entry, so the append always happens |
| `ToolList.AllFunctionToolsLength` | app.py:226-228 | before filtering, the number of entries is the sum of the per-connection tool counts |
| `ToolList.AssembleToolsFilter` | app.py:237-256 | for a user outside both domains no configuring tool remains; with no user or a privileged user the list is all wrapped tools plus `file_search`; in every case the order is kept and no other entry is lost |
| `ToolList.AssembleToolsOffers` | app.py:226-256 | a tool is offered iff some connection lists it and it is not the configuring tool hidden from this user |
| `ToolInvocation.DataUrlRoundTrip` | app.py:325-331 | the image URL `data:<mimeType>;base64,<data>` reads back as the same media type and data |
| `ToolInvocation.ConvertPrefix` | app.py:321-338 | before the first unsupported item each item converts in place (text to its string, image to its data URL); at the first unsupported item the converted items are kept and one error item follows |
| `ToolInvocation.ConvertErrorIsLast` | app.py:321-338 | the converted list holds at most one error item, and only as its last element |
| `ToolInvocation.CallTool` | app.py:311-339 | a missing session gives `no MCP session for <name>` (`None` when no server was found); a raised call gives exactly one error item; otherwise the converted content |
| `Auth.AuthCallback` | app.py:342-369 | a user is returned iff the username is a key of the user map whose stored password equals the given one; it carries the username, provider `credentials`, and role admin iff the username is `admin@example.com` |
| `Auth.MockLogins` | app.py:347-369 | with the mock map only `user1` with its password logs in, and never as admin |
| `Auth.MockUserLosesConfigTool` | app.py:239-251 | the mock user is outside both operator domains, so its tool list never contains the configuring tool |
| `ServerConfig.NameAndUrlRoundTrip` | app.py:200 | `NAME@URL` with no `@` in either part splits back into that name and URL |
| `ServerConfig.SplitNameAndUrlSound` | app.py:200 | a value that splits was exactly `name@url`, and neither part contains `@` |
| `ServerConfig.ServerEntries` | app.py:198-199 | exactly the environment entries whose key starts with `MCP_SERVER_` are kept |
| `ServerConfig.ServerEntriesKeepOrder` | app.py:198-199 | the kept entries are in environment order |
| `ServerConfig.PredefinedServers` | app.py:198-200 | the servers are the splits of the `MCP_SERVER_` entries, in order, up to the first value that does not split; that entry's key is reported and the scan stops there; if no value fails, every entry is split |
| `ServerConfig.WellFormedServersAllConnected` | app.py:198-200 | when every `MCP_SERVER_` value is `NAME@URL`, nothing fails and every such entry yields its server, in order |

## Left out

- Azure OpenAI calls: thread and message creation, run streaming, `runs.retrieve`, `submit_tool_outputs_stream`. These are SDK I/O.
- The polling loop's `while True` with `asyncio.sleep` and its run-status checks (app.py:131-180). Only one `requires_action` round is modelled.
- The `EventHandler` UI callbacks (`on_text_*`, `on_tool_call_created`, `on_tool_call_done`) and their `current_message`, `current_search_step` and `current_search_call` fields. They only drive UI steps.
- `Dispatch.EventHandler.CollectToolOutputs`: the call arguments stay raw JSON text passed to the invocation. A malformed `arguments` string, which makes `json.loads` raise out of the handler, is not modelled. The registry is read once for the whole round, where the source re-reads the session's dict for each call.
- `ToolInvocation.CallTool`: the MCP client call is a function parameter, so the contract cannot say that no call is made when the session is missing; it says the answer does not depend on the call. Exceptions other than the client's and the unsupported-item `ValueError` are not modelled. `OtherContent` carries `str(type(item))` as given text.
- `json.dumps` of the result list and `json.loads` of arguments: the model stops at the item list.
- `on_mcp_connect`'s `session.list_tools()` call and its conversion of MCP tool objects into dicts: the registry receives the already-converted `Tool` values. The tools' input schemas and descriptions stay opaque. `on_mcp_disconnect` only logs and leaves `mcp_tools` untouched, which the model mirrors by having no removal.
- `connect_mcp`, the connection attempts and their failure messages in `connect_predefined_mcp_servers`: `ServerConfig.PredefinedServers` gives the servers whose connection would be attempted. The environment's iteration order is an input sequence.
- The SQLAlchemy data layer, `load_instruction`, `load_dotenv`, logging and `set_starters`. These are configuration, file I/O or static UI content.
- The user-presence test `if user` treats every present `User` as logged in; Chainlit users are always truthy.
