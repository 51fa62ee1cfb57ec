# nanobot MCP client layer, modelled in Dafny

nanobot is an agent that can use tools served by external MCP (Model Context
Protocol) servers. This project models the two files that make that work:

- **The connection manager** (`nanobot/mcp/client.py`, module `McpClientManager`).
  Its `start` goes through the configured servers in order. For each enabled
  server it builds an HTTP or stdio transport from the configuration, opens
  a client session, lists the server's tools and wraps every tool in an
  adapter. A failing server is logged and skipped. The others are unaffected,
  and the manager ends up started whatever happened. A second `start` is a
  no-op. `stop` tries to close every opened client on a best-effort basis and
  then clears everything.
- **The tool adapter** (`nanobot/mcp/tools.py`, module `McpToolAdapter`). It
  exposes one remote tool under the name `mcp__<server>__<tool>`. An empty
  description or schema gets a default. `execute` forwards a call and turns
  the answer into a single string: the content blocks joined by newlines,
  `(empty result)` when there are no blocks, or an error text when the call
  raises.

The external MCP library (`fastmcp`) is reduced to an oracle (module
`McpRemote`). For each server name, a `ServerBehaviour` fixes four things:
whether opening the session succeeds, what listing the tools returns (None
when it raises), whether closing succeeds, and what each call returns. The
manager is a class whose fields are the source's `_clients`, `_contexts`,
`_tools` and `_started`. It also has a ghost event log of the connects,
listings and closes it performs on remote servers. Its methods are proved
against `Discover`, a function that gives what a fresh `start` produces from
the configuration and the remote servers. The properties of the source
(failure isolation, idempotence, disabled servers left untouched, every
adapter bound to its server's client, `stop` closing exactly the opened
clients) are lemmas about `Discover`.

Files:
- `common.dfy`: Option, Result, JSON values and string predicates.
- `remote.dfy`: the oracle.
- `tools.dfy`: the adapter.
- `client.dfy`: the manager.

Behaviours of the code worth noting:
- In `tools.py`, the error text of a failed call is `Error calling MCP tool '<tool>' on server '<server>': <message>`.
- In `client.py`, an unknown transport type is reported as `unsupported transport type '<type>' (expected 'http' or 'stdio')`. The transport types are the strings `http` and `stdio`.
- In `tools.py`, the `(empty result)` branch is taken only when there are no content blocks. A single block with empty text gives the empty string, and `n` empty blocks give `n - 1` newlines (`EmptyTextBlocks`). A single block whose text is itself `(empty result)` gives the same string as no blocks.

## Model

| member | source | states |
|---|---|---|
| McpToolAdapter.DefaultSchema | nanobot/mcp/tools.py:34-37 | the fallback schema is the object schema with no properties, and it is not empty |
| McpToolAdapter.DefaultDescription | nanobot/mcp/tools.py:33 | the fallback description is not empty; it starts with "MCP tool ", then names the tool, then " from ", and ends with the server name |
| McpToolAdapter.NewAdapter | nanobot/mcp/tools.py:23-38 | server name, tool name and client are kept; a non-empty description or schema is kept and an empty one is replaced by its default, so the adapter is `Described`: `description` and `parameters` are never empty |
| McpToolAdapter.Adapter.Name | nanobot/mcp/tools.py:42-44 | the public name is the prefix `mcp__`, then the server name, then `__`, then the tool name; its decoding is stated by `NameRoundTrip` and `NameInjective` |
| McpToolAdapter.NameRoundTrip | nanobot/mcp/tools.py:42-44 | when the server name contains no `__` and does not end in `_`, the public name decodes back to the server and tool names |
| McpToolAdapter.NameInjective | nanobot/mcp/tools.py:15-21 | two adapters over such server names share a public name only if they have the same server and tool |
| McpToolAdapter.NamesCanCollide | nanobot/mcp/tools.py:19-20 | without that condition, servers `a__b` and `a` with tools `c` and `b__c` both get the name `mcp__a__b__c` |
| McpToolAdapter.Rendered | nanobot/mcp/tools.py:61-65 | one string per content block, in order: a text block's text, otherwise the block's string form |
| McpToolAdapter.JoinSplitRoundTrip | nanobot/mcp/tools.py:67 | joining one or more newline-free parts with newlines and splitting the result again gives back the parts |
| McpToolAdapter.ContentTextRecoversBlocks | nanobot/mcp/tools.py:60-67 | no blocks give the sentinel; otherwise, if no block holds a newline, splitting the result gives back exactly the rendered blocks |
| McpToolAdapter.EmptyTextBlocks | nanobot/mcp/tools.py:67 | `n >= 1` empty text blocks give `n - 1` newlines and never the sentinel |
| McpToolAdapter.ContentText | nanobot/mcp/tools.py:59-67 | the text of a successful call: one block gives exactly its rendering, and two or more start with the first block's rendering and a newline; `ContentTextRecoversBlocks` and `EmptyTextBlocks` state the rest |
| McpToolAdapter.CallErrorText | nanobot/mcp/tools.py:72 | the error text starts with the fixed prefix, names the bare tool name and then the server, and ends with the failure's message |
| McpToolAdapter.ExecuteResult | nanobot/mcp/tools.py:56-72 | a raised call gives a text that starts with the error prefix and ends with the failure's message; no blocks give the sentinel; one block gives exactly its rendering |
| McpToolAdapter.Execute | nanobot/mcp/tools.py:54-72 | forwards the bare tool name and the arguments unchanged; a raised call gives the error text, otherwise the rendered blocks joined by newlines, or the sentinel when there are none |
| McpClientManager.DefaultServerConfig | tests/test_mcp.py:20-28 | a default configuration is an enabled http server with empty url, command, headers, args and env |
| McpClientManager.BuildTransport | nanobot/mcp/client.py:99-118 | succeeds exactly when the type is http with a url or stdio with a command; the transport carries the url and headers, or the command, args and env, with absent collections replaced by empty ones |
| McpClientManager.HttpWithoutUrl | nanobot/mcp/client.py:104-106 | an http server without a url is rejected; the message names the server and ends with "HTTP transport requires a 'url'" |
| McpClientManager.StdioWithoutCommand | nanobot/mcp/client.py:111-113 | a stdio server without a command is rejected; the message names the server and ends with "stdio transport requires a 'command'" |
| McpClientManager.UnsupportedTransport | nanobot/mcp/client.py:119-123 | any other type is rejected; right after the server prefix, the message says "unsupported transport type" and names the type |
| McpClientManager.BuildTransportRoundTrip | nanobot/mcp/client.py:104-118 | every http transport with a url, and every stdio transport with a command, is what its own configuration builds |
| McpClientManager.BuildTransportIgnoresUnusedFields | nanobot/mcp/client.py:104-118 | the fields of the other transport type and `enabled` do not affect the result |
| McpClientManager.Adapt | nanobot/mcp/client.py:62-68 | the adapter for one listed tool keeps the server name, the tool name and the client and is `Described`; a missing or empty description becomes the default description, and a missing or empty schema the default schema |
| McpClientManager.AdaptersFor | nanobot/mcp/client.py:61-69 | one adapter per listed tool, in listing order; a missing description becomes "" and a missing schema `{}` before the adapter's fallbacks apply |
| McpClientManager.ProcessServer | nanobot/mcp/client.py:41-72 | one pass of the loop with its exception handler: skipped exactly when the server is disabled, and rejected only when its transport fails to build; `ProcessServerCases` states the full case split |
| McpClientManager.Discover | nanobot/mcp/client.py:38-73 | what a fresh `start` builds by folding `ProcessServer` over the servers in order: at most one opened client and at most two events per server; the lemmas below state its properties |
| McpClientManager.ProcessServerCases | nanobot/mcp/client.py:41-72 | one server is skipped exactly when disabled, rejected exactly when its transport fails, left open exactly when its connect succeeds, and contributes adapters exactly when its listing also succeeds; the adapters carry its name and its client |
| McpClientManager.CloseEvents | nanobot/mcp/client.py:79-83 | one close attempt per opened client, in the order the clients were opened, with that client's outcome |
| McpClientManager.Manager.constructor | nanobot/mcp/client.py:24-29 | a new manager is not started and holds no clients, contexts or adapters |
| McpClientManager.Manager.GetTools | nanobot/mcp/client.py:89-91 | no adapters before a start; every adapter returned is bound to the recorded client of its server and is `Described` |
| McpClientManager.Manager.IsStarted | nanobot/mcp/client.py:93-95 | a manager that is not started holds no clients and no adapters |
| McpClientManager.Manager.Start | nanobot/mcp/client.py:33-75 | once started, it returns the current adapters and changes nothing; otherwise its adapters, opened clients and events are exactly `Discover` over the configuration, and it ends started with every adapter bound to its server's client |
| McpClientManager.Manager.ConnectServers | nanobot/mcp/client.py:40-73 | after the loop over the configured servers, adapters, contexts and events equal `Discover`, and `_clients` is the mapping of the contexts |
| McpClientManager.Manager.AddAdapters | nanobot/mcp/client.py:61-69 | the inner loop appends exactly `AdaptersFor` the listed tools, in order, and changes nothing else |
| McpClientManager.Manager.StartServer | nanobot/mcp/client.py:41-72 | one pass of the loop adds exactly that server's adapters, opened client and events, and touches nothing else |
| McpClientManager.Manager.Stop | nanobot/mcp/client.py:77-87 | attempts one close per opened client, in the order they were opened, whatever each close does, then leaves the manager not started and empty |
| McpClientManager.StartTwice | nanobot/mcp/client.py:35-36 | two starts in a row return the same adapters, and connections are attempted only once per enabled server whose transport builds |
| McpClientManager.DiscoverConnectCount | nanobot/mcp/client.py:45-51 | a fresh start attempts exactly one connect per enabled server whose transport builds |
| McpClientManager.DiscoverContextsDistinct | nanobot/mcp/client.py:52-53 | opened clients are recorded under distinct server names |
| McpClientManager.RecordedIffConnected | nanobot/mcp/client.py:45-56 | a configured server has a recorded client exactly when its connect succeeded, even if the listing then failed; the client is built over its transport |
| McpClientManager.ServerContribution | nanobot/mcp/client.py:40-73 | the adapters of each server in a fresh start's list are exactly what it contributes on its own, in its listing order, whatever the other servers do |
| McpClientManager.ServerAdapters | nanobot/mcp/client.py:56-69 | a server whose transport, connect or listing fails contributes no adapters; otherwise it contributes one per tool, carrying its name and the tool's name |
| McpClientManager.DisabledServerUntouched | nanobot/mcp/client.py:41-43 | a disabled server gets no event, no recorded client and no adapters |
| McpClientManager.DiscoverToolsBound | nanobot/mcp/client.py:62-69 | every adapter of a fresh start is bound to the client recorded for its server |
| McpClientManager.DiscoverToolsDescribed | nanobot/mcp/tools.py:33-37 | every adapter of a fresh start has a non-empty description and a non-empty schema |
| McpClientManager.CloseEventsCoverRecorded | nanobot/mcp/client.py:79-83 | `stop` attempts a close for a name exactly when a client is recorded under it, and for no name twice |
| McpClientManager.StopClosesConnected | nanobot/mcp/client.py:77-87 | after a fresh start, `stop` attempts a close for a configured server exactly when its connect succeeded |

## Left out

- Asynchronous execution and concurrency: every `await` is modelled as a step that finishes.
- Logging through `loguru`: it has no effect on the state.
- The `fastmcp` wire protocol and the session objects: they are the oracle described above. A `Client` is a value made of its transport and its server's behaviour.
- `str(block)` and `str(e)`: they are modelled as strings the oracle gives.
- Parsing and validation of the configuration: `McpConfig` and `McpServerConfig` are not part of this model. A server configuration is a plain record, and a url or command of None is treated like the empty string. The servers are a sequence with distinct names, because they come from a mapping.
- Aliasing of lists: `start` returns the internal adapter list, and `stop` empties that same list in place. The model returns values, so an earlier result stays as it was.
- `_contexts` is an insertion-ordered dictionary. It is modelled as a sequence of (name, client) pairs, and `_clients` as a map that always equals the mapping of those pairs (`Valid`).
- `Adapter` is a plain datatype, so a value without a description can be written down directly. Only `NewAdapter` builds adapters in the model, and the manager's `Valid` keeps every adapter it holds `Described`.
- Exceptions other than the modelled ones are not modelled. This includes one raised while building an adapter, and a failure of `hasattr` itself.
- The tool registry, the adapter's `to_schema` inherited from `Tool`, the calendar tool and the package `__init__` are not part of this model.
- JSON numbers are modelled as integers. Schemas and arguments are passed through unchanged, so nothing depends on their values.
- McpToolAdapter.NameInjective: the promise that namespaced names never collide holds only for server names without `__` and without a trailing `_`. `NamesCanCollide` shows two colliding adapters otherwise.
