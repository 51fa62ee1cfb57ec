/** The external MCP client library, reduced to what the core observes of it.
    A transport descriptor is plain data; everything a remote server does is
    fixed by a `ServerBehaviour`: whether opening the session succeeds, what
    listing its tools returns, whether closing succeeds, and what each call
    returns. The wire protocol is not modelled. */
module McpRemote {
  import opened McpCommon

  /** `StreamableHttpTransport(url, headers)` or `StdioTransport(command, args, env)`. */
  datatype Transport =
    | Http(url: string, headers: map<string, string>)
    | Stdio(command: string, args: seq<string>, env: map<string, string>)

  /** One content block of a call result: a block with a `text` attribute,
      or any other block, carried as its string form. */
  datatype Block = Text(text: string) | Other(rendered: string)

  /** What `call_tool` does: return content blocks, or raise with a message. */
  datatype CallOutcome = Returned(content: seq<Block>) | Raised(message: string)

  /** A tool descriptor returned by `list_tools`. `description` may be None;
      `inputSchema` is None when the descriptor has no such attribute. */
  datatype RemoteTool = RemoteTool(name: string, description: Option<string>, inputSchema: Option<JsonObject>)

  /** How one remote server answers: `connects` is whether entering the
      client's context succeeds, `listing` is None when `list_tools` raises,
      `closes` is whether leaving the context succeeds, and `call` answers
      `call_tool(name, arguments)`. */
  datatype ServerBehaviour = ServerBehaviour(
    connects: bool,
    listing: Option<seq<RemoteTool>>,
    closes: bool,
    call: (string, JsonObject) -> CallOutcome)

  /** The remote world at the time of a call, per server name. */
  type Remote = string -> ServerBehaviour

  /** A client built over a transport and bound to one server's behaviour. */
  datatype Client = Client(transport: Transport, behaviour: ServerBehaviour)
}
