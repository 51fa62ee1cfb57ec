/** The connection manager: builds a transport per configured server,
    connects every enabled server in configuration order, lists its tools and
    wraps each in an adapter, isolating one server's failure from the rest;
    `Stop` closes every recorded client on a best-effort basis and resets the
    manager. */
module McpClientManager {
  import opened McpCommon
  import opened McpRemote
  import opened McpToolAdapter

  // ---------------------------------------------------------------------------
  // Configuration

  const HttpType: string := "http"
  const StdioType: string := "stdio"

  /** One server's configuration. `headers`, `args` and `env` are None when
      the configuration holds null for them. */
  datatype ServerConfig = ServerConfig(
    enabled: bool,
    transportType: string,
    url: string,
    headers: Option<map<string, string>>,
    command: string,
    args: Option<seq<string>>,
    env: Option<map<string, string>>)

  /** A named entry of the configuration's ordered `servers` mapping. */
  datatype ServerEntry = ServerEntry(name: string, config: ServerConfig)

  /** The defaults a configuration record starts from. */
  function DefaultServerConfig(): (c: ServerConfig)
    ensures c.enabled && c.transportType == HttpType && c.url == "" && c.command == ""
    ensures c.headers == Some(map[]) && c.args == Some([]) && c.env == Some(map[])
  {
    ServerConfig(true, HttpType, "", Some(map[]), "", Some([]), Some(map[]))
  }

  /** The server names are the keys of a mapping, so no two are equal. */
  predicate UniqueNames(servers: seq<ServerEntry>) {
    forall i, j :: 0 <= i < j < |servers| ==> servers[i].name != servers[j].name
  }

  function NamesOf(servers: seq<ServerEntry>): set<string> {
    set e | e in servers :: e.name
  }

  // ---------------------------------------------------------------------------
  // Transport selection

  predicate TransportConfigured(cfg: ServerConfig) {
    || (cfg.transportType == HttpType && cfg.url != "")
    || (cfg.transportType == StdioType && cfg.command != "")
  }

  function ServerPrefix(name: string): string {
    "MCP server '" + name + "': "
  }

  /** `_build_transport`: the transport the configuration selects, with
      absent headers, arguments and environment replaced by empty ones, or
      the message of the `ValueError` raised for an incomplete or unknown
      transport. */
  function BuildTransport(name: string, cfg: ServerConfig): (r: Result<Transport>)
    ensures r.Ok? <==> TransportConfigured(cfg)
    ensures r.Ok? && cfg.transportType == HttpType ==>
              r.value == Http(cfg.url, cfg.headers.GetOr(map[]))
    ensures r.Ok? && cfg.transportType == StdioType ==>
              r.value == Stdio(cfg.command, cfg.args.GetOr([]), cfg.env.GetOr(map[]))
  {
    if cfg.transportType == HttpType then
      if cfg.url == "" then Err(ServerPrefix(name) + "HTTP transport requires a 'url'")
      else Ok(Http(cfg.url, cfg.headers.GetOr(map[])))
    else if cfg.transportType == StdioType then
      if cfg.command == "" then Err(ServerPrefix(name) + "stdio transport requires a 'command'")
      else Ok(Stdio(cfg.command, cfg.args.GetOr([]), cfg.env.GetOr(map[])))
    else
      Err(ServerPrefix(name) + "unsupported transport type '" + cfg.transportType
          + "' (expected 'http' or 'stdio')")
  }

  /** An http server without a url is rejected with a message that names
      the server and then says the url is missing. */
  lemma HttpWithoutUrl(name: string, cfg: ServerConfig)
    requires cfg.transportType == HttpType && cfg.url == ""
    ensures BuildTransport(name, cfg).Err?
    ensures StartsWith(BuildTransport(name, cfg).error, ServerPrefix(name))
    ensures EndsWith(BuildTransport(name, cfg).error, "HTTP transport requires a 'url'")
  {
    StartsWithConcat(ServerPrefix(name), "HTTP transport requires a 'url'");
    EndsWithConcat(ServerPrefix(name), "HTTP transport requires a 'url'");
  }

  /** A stdio server without a command is rejected with a message that names
      the server and then says the command is missing. */
  lemma StdioWithoutCommand(name: string, cfg: ServerConfig)
    requires cfg.transportType == StdioType && cfg.command == ""
    ensures BuildTransport(name, cfg).Err?
    ensures StartsWith(BuildTransport(name, cfg).error, ServerPrefix(name))
    ensures EndsWith(BuildTransport(name, cfg).error, "stdio transport requires a 'command'")
  {
    StartsWithConcat(ServerPrefix(name), "stdio transport requires a 'command'");
    EndsWithConcat(ServerPrefix(name), "stdio transport requires a 'command'");
  }

  /** Any other transport type is rejected as unsupported, naming the server
      and the type. */
  lemma UnsupportedTransport(name: string, cfg: ServerConfig)
    requires cfg.transportType != HttpType && cfg.transportType != StdioType
    ensures BuildTransport(name, cfg).Err?
    ensures StartsWith(BuildTransport(name, cfg).error, ServerPrefix(name))
    ensures OccursAt(BuildTransport(name, cfg).error,
                     "unsupported transport type '" + cfg.transportType, |ServerPrefix(name)|)
  {
    var p := ServerPrefix(name);
    var kind := "unsupported transport type '" + cfg.transportType;
    var tail := "' (expected 'http' or 'stdio')";
    assert BuildTransport(name, cfg).error == p + kind + tail;
    StartsWithConcat(p, kind + tail);
    OccursBetween(p, kind, tail);
  }

  /** A configuration that selects exactly the given transport. */
  function ConfigFor(t: Transport): ServerConfig {
    match t
    case Http(url, headers) => DefaultServerConfig().(url := url, headers := Some(headers))
    case Stdio(command, args, env) =>
      DefaultServerConfig().(transportType := StdioType, command := command, args := Some(args), env := Some(env))
  }

  /** Every transport with a url or a command is what its configuration builds. */
  lemma BuildTransportRoundTrip(name: string, t: Transport)
    requires t.Http? ==> t.url != ""
    requires t.Stdio? ==> t.command != ""
    ensures BuildTransport(name, ConfigFor(t)) == Ok(t)
  {
  }

  /** The field group of the other transport type is ignored, and so is `enabled`. */
  lemma BuildTransportIgnoresUnusedFields(name: string, cfg: ServerConfig, other: ServerConfig)
    requires cfg.transportType == other.transportType
    requires cfg.transportType == HttpType ==> cfg.url == other.url && cfg.headers == other.headers
    requires cfg.transportType == StdioType ==>
               cfg.command == other.command && cfg.args == other.args && cfg.env == other.env
    ensures BuildTransport(name, cfg) == BuildTransport(name, other)
  {
  }

  // ---------------------------------------------------------------------------
  // Discovery, as a function of the configuration and the remote servers

  /** What the manager observably does to a remote server. */
  datatype Event = Connect(server: string) | ListTools(server: string) | Close(server: string, succeeded: bool)

  /** How processing one configured server ends. */
  datatype ServerOutcome =
    | Skipped
    | BadConfig(message: string)
    | ConnectFailed
    | ListFailed(client: Client)
    | Listed(client: Client, adapters: seq<Adapter>)

  /** The adapter for one discovered tool: a missing description becomes ""
      and a missing schema `{}`, before the adapter's own fallbacks apply. */
  function Adapt(serverName: string, tool: RemoteTool, client: Client): (a: Adapter)
    ensures a.serverName == serverName && a.toolName == tool.name && a.client == client
    ensures a.Described()
    ensures tool.description.Some? && tool.description.value != "" ==> a.description == tool.description.value
    ensures tool.description.None? || tool.description.value == "" ==>
              a.description == DefaultDescription(tool.name, serverName)
    ensures tool.inputSchema.Some? && tool.inputSchema.value != map[] ==> a.parameters == tool.inputSchema.value
    ensures tool.inputSchema.None? || tool.inputSchema.value == map[] ==> a.parameters == DefaultSchema()
  {
    NewAdapter(serverName, tool.name, tool.description.GetOr(""), tool.inputSchema.GetOr(map[]), client)
  }

  /** One adapter per discovered tool, in discovery order. */
  function AdaptersFor(serverName: string, tools: seq<RemoteTool>, client: Client): (ads: seq<Adapter>)
    ensures |ads| == |tools|
    ensures forall k :: 0 <= k < |tools| ==> ads[k] == Adapt(serverName, tools[k], client)
  {
    if tools == [] then []
    else AdaptersFor(serverName, tools[..|tools| - 1], client) + [Adapt(serverName, tools[|tools| - 1], client)]
  }

  /** The body of `start`'s loop for one server, with the exception handler. */
  function ProcessServer(entry: ServerEntry, b: ServerBehaviour): (o: ServerOutcome)
    ensures o.Skipped? <==> !entry.config.enabled
    ensures o.BadConfig? ==> entry.config.enabled && BuildTransport(entry.name, entry.config).Err?
  {
    if !entry.config.enabled then Skipped
    else
      match BuildTransport(entry.name, entry.config)
      case Err(message) => BadConfig(message)
      case Ok(transport) =>
        if !b.connects then ConnectFailed
        else
          var client := Client(transport, b);
          match b.listing
          case None => ListFailed(client)
          case Some(tools) => Listed(client, AdaptersFor(entry.name, tools, client))
  }

  /** How one server's processing ends: skipped exactly when disabled,
      rejected exactly when its transport does not build, left open exactly
      when its connect succeeds, and contributing adapters exactly when its
      tools could also be listed; the client is built over its transport
      and every adapter carries the server's name and that client. */
  lemma ProcessServerCases(entry: ServerEntry, b: ServerBehaviour)
    ensures var o := ProcessServer(entry, b);
            && (o.Skipped? <==> !entry.config.enabled)
            && ((o.Skipped? || o.BadConfig?) <==> !(entry.config.enabled && BuildTransport(entry.name, entry.config).Ok?))
            && (o.BadConfig? ==> o == BadConfig(BuildTransport(entry.name, entry.config).error))
            && ((o.ListFailed? || o.Listed?) <==> Connects(entry, b))
            && ((o.ListFailed? || o.Listed?) ==> o.client == Client(BuildTransport(entry.name, entry.config).value, b))
            && (o.Listed? <==> Connects(entry, b) && b.listing.Some?)
            && (o.Listed? ==> o.adapters == AdaptersFor(entry.name, b.listing.value, o.client))
            && (forall k :: 0 <= k < |Contributed(o)| ==>
                  Contributed(o)[k].serverName == entry.name && Contributed(o)[k].client == o.client)
  {
  }

  /** The adapters a server contributes: none unless its tools were listed. */
  function Contributed(o: ServerOutcome): seq<Adapter> {
    if o.Listed? then o.adapters else []
  }

  /** The state `start` builds: adapters, opened clients in the order they
      were opened, and the events it caused. */
  datatype Discovery = Discovery(tools: seq<Adapter>, contexts: seq<(string, Client)>, events: seq<Event>)

  /** The client a server leaves open: one exactly when its connect succeeded. */
  function OpenedFor(name: string, o: ServerOutcome): seq<(string, Client)> {
    if o.ListFailed? || o.Listed? then [(name, o.client)] else []
  }

  /** What processing a server does to it: a connect attempt once its
      transport builds, and a tool listing once the connect succeeded. */
  function EventsFor(name: string, o: ServerOutcome): seq<Event> {
    match o
    case Skipped => []
    case BadConfig(_) => []
    case ConnectFailed => [Connect(name)]
    case ListFailed(_) => [Connect(name), ListTools(name)]
    case Listed(_, _) => [Connect(name), ListTools(name)]
  }

  function Record(d: Discovery, name: string, o: ServerOutcome): Discovery {
    Discovery(d.tools + Contributed(o), d.contexts + OpenedFor(name, o), d.events + EventsFor(name, o))
  }

  /** What a fresh `start` produces over the servers, in configuration order. */
  function Discover(servers: seq<ServerEntry>, remote: Remote): (d: Discovery)
    ensures |d.contexts| <= |servers|
    ensures |d.events| <= 2 * |servers|
  {
    if servers == [] then Discovery([], [], [])
    else
      var last := servers[|servers| - 1];
      Record(Discover(servers[..|servers| - 1], remote), last.name, ProcessServer(last, remote(last.name)))
  }

  /** The client mapping an insertion-ordered list of opened clients denotes. */
  function ContextMap(ctx: seq<(string, Client)>): map<string, Client> {
    if ctx == [] then map[]
    else ContextMap(ctx[..|ctx| - 1])[ctx[|ctx| - 1].0 := ctx[|ctx| - 1].1]
  }

  predicate DistinctNames(ctx: seq<(string, Client)>) {
    forall i, j :: 0 <= i < j < |ctx| ==> ctx[i].0 != ctx[j].0
  }

  /** A server is opened when it is enabled, its transport builds and its connect succeeds. */
  predicate Connects(entry: ServerEntry, b: ServerBehaviour) {
    entry.config.enabled && BuildTransport(entry.name, entry.config).Ok? && b.connects
  }

  /** The adapters of one server among a list of adapters, in order. */
  function OfServer(tools: seq<Adapter>, name: string): (r: seq<Adapter>)
    ensures forall k :: 0 <= k < |r| ==> r[k].serverName == name
  {
    if tools == [] then []
    else
      var last := tools[|tools| - 1];
      OfServer(tools[..|tools| - 1], name) + (if last.serverName == name then [last] else [])
  }

  /** The events of `stop` over the opened clients, in the order they were opened. */
  function CloseEvents(ctx: seq<(string, Client)>): (es: seq<Event>)
    ensures |es| == |ctx|
    ensures forall k :: 0 <= k < |ctx| ==> es[k] == Close(ctx[k].0, ctx[k].1.behaviour.closes)
  {
    if ctx == [] then []
    else CloseEvents(ctx[..|ctx| - 1]) + [Close(ctx[|ctx| - 1].0, ctx[|ctx| - 1].1.behaviour.closes)]
  }

  /** The number of connection attempts among the events. */
  function ConnectCount(events: seq<Event>): nat {
    if events == [] then 0
    else ConnectCount(events[..|events| - 1]) + (if events[|events| - 1].Connect? then 1 else 0)
  }

  /** The number of servers that are enabled and whose transport builds. */
  function Attempted(servers: seq<ServerEntry>): nat {
    if servers == [] then 0
    else
      var last := servers[|servers| - 1];
      Attempted(servers[..|servers| - 1])
        + (if last.config.enabled && BuildTransport(last.name, last.config).Ok? then 1 else 0)
  }

  // ---------------------------------------------------------------------------
  // The manager

  class Manager {
    const config: seq<ServerEntry>
    /** `_clients`: server name to open client. */
    var clients: map<string, Client>
    /** `_contexts`: the same clients, in the order they were opened. */
    var contexts: seq<(string, Client)>
    var tools: seq<Adapter>
    var started: bool
    /** Everything the manager has done to remote servers so far. */
    ghost var log: seq<Event>

    ghost predicate Valid()
      reads this
    {
      && UniqueNames(config)
      && DistinctNames(contexts)
      && clients == ContextMap(contexts)
      && (!started ==> contexts == [] && tools == [])
      && (forall a :: a in tools ==> a.serverName in clients && clients[a.serverName] == a.client)
      && (forall a :: a in tools ==> a.Described())
    }

    constructor (config: seq<ServerEntry>)
      requires UniqueNames(config)
      ensures Valid() && this.config == config
      ensures !started && clients == map[] && contexts == [] && tools == [] && log == []
    {
      this.config := config;
      clients := map[];
      contexts := [];
      tools := [];
      started := false;
      log := [];
    }

    /** `get_tools`: the current adapters, none before a start. */
    function GetTools(): (r: seq<Adapter>)
      reads this
      requires Valid()
      ensures !started ==> r == []
      ensures forall a :: a in r ==> a.serverName in clients && clients[a.serverName] == a.client
      ensures forall a :: a in r ==> a.Described()
    {
      tools
    }

    /** `is_started`: false whenever nothing is open. */
    function IsStarted(): (r: bool)
      reads this
      requires Valid()
      ensures !r ==> clients == map[] && tools == []
    {
      started
    }

    /** `start`: a no-op returning the current adapters once started;
        otherwise processes every configured server in order and ends
        started, whatever the servers did. */
    method Start(remote: Remote) returns (result: seq<Adapter>)
      requires Valid()
      modifies this
      ensures Valid() && started && result == tools
      ensures old(started) ==>
                tools == old(tools) && clients == old(clients) && contexts == old(contexts) && log == old(log)
      ensures !old(started) ==>
                && tools == Discover(config, remote).tools
                && contexts == Discover(config, remote).contexts
                && log == old(log) + Discover(config, remote).events
    {
      if started {
        return tools;
      }
      tools := [];
      ConnectServers(remote);
      DiscoverContextsDistinct(config, remote);
      DiscoverToolsBound(config, remote);
      DiscoverToolsDescribed(config, remote);
      started := true;
      result := tools;
    }

    /** The loop of `start` over the configured servers, in order. */
    method ConnectServers(remote: Remote)
      requires tools == [] && contexts == [] && clients == map[]
      modifies this
      ensures tools == Discover(config, remote).tools
      ensures contexts == Discover(config, remote).contexts
      ensures clients == ContextMap(contexts)
      ensures log == old(log) + Discover(config, remote).events
      ensures started == old(started)
    {
      var i := 0;
      while i < |config|
        invariant 0 <= i <= |config|
        invariant tools == Discover(config[..i], remote).tools
        invariant contexts == Discover(config[..i], remote).contexts
        invariant clients == ContextMap(contexts)
        invariant log == old(log) + Discover(config[..i], remote).events
        invariant started == old(started)
      {
        ghost var (t0, c0, m0, l0) := (tools, contexts, clients, log);
        StartServer(config[i], remote(config[i].name));
        ConnectStep(config, remote, i, old(log), t0, c0, m0, l0, tools, contexts, clients, log);
        i := i + 1;
      }
      assert config[..i] == config;
    }

    /** One pass of `start`'s loop: the `try` block for one server and its
        exception handler, which swallows a transport, connect or listing
        failure. */
    method StartServer(entry: ServerEntry, behaviour: ServerBehaviour)
      modifies this
      ensures var o := ProcessServer(entry, behaviour);
              && tools == old(tools) + Contributed(o)
              && contexts == old(contexts) + OpenedFor(entry.name, o)
              && clients == (if o.ListFailed? || o.Listed? then old(clients)[entry.name := o.client] else old(clients))
              && log == old(log) + EventsFor(entry.name, o)
              && started == old(started)
    {
      if !entry.config.enabled {
        return;
      }
      var transport := BuildTransport(entry.name, entry.config);
      if transport.Err? {
        return;
      }
      log := log + [Connect(entry.name)];
      if !behaviour.connects {
        return;
      }
      var client := Client(transport.value, behaviour);
      clients := clients[entry.name := client];
      contexts := contexts + [(entry.name, client)];
      log := log + [ListTools(entry.name)];
      if behaviour.listing.None? {
        return;
      }
      AddAdapters(entry.name, behaviour.listing.value, client);
    }

    /** The inner loop of `start`: one adapter per listed tool, appended in
        listing order; nothing else changes. */
    method AddAdapters(name: string, remoteTools: seq<RemoteTool>, client: Client)
      modifies this
      ensures tools == old(tools) + AdaptersFor(name, remoteTools, client)
      ensures contexts == old(contexts) && clients == old(clients)
      ensures log == old(log) && started == old(started)
    {
      var j := 0;
      while j < |remoteTools|
        invariant 0 <= j <= |remoteTools|
        invariant tools == old(tools) + AdaptersFor(name, remoteTools[..j], client)
        invariant contexts == old(contexts) && clients == old(clients)
        invariant log == old(log) && started == old(started)
      {
        assert remoteTools[..j + 1][..j] == remoteTools[..j];
        tools := tools + [Adapt(name, remoteTools[j], client)];
        j := j + 1;
      }
      assert remoteTools[..j] == remoteTools;
    }

    /** `stop`: attempts to close every opened client in the order they were
        opened, whatever each close does, then clears everything. */
    method Stop()
      requires Valid()
      modifies this
      ensures Valid() && !started
      ensures clients == map[] && contexts == [] && tools == []
      ensures log == old(log) + CloseEvents(old(contexts))
    {
      var i := 0;
      while i < |contexts|
        invariant 0 <= i <= |contexts|
        invariant contexts == old(contexts)
        invariant log == old(log) + CloseEvents(contexts[..i])
      {
        assert contexts[..i + 1][..i] == contexts[..i];
        var (name, client) := contexts[i];
        // A failing close is only logged by the source.
        var succeeded := client.behaviour.closes;
        log := log + [Close(name, succeeded)];
        i := i + 1;
      }
      assert contexts[..i] == contexts;
      clients := map[];
      contexts := [];
      tools := [];
      started := false;
    }
  }

  /** Two starts in a row return the same adapters and connect once per
      attempted server in all. */
  method StartTwice(m: Manager, remote: Remote) returns (first: seq<Adapter>, second: seq<Adapter>)
    requires m.Valid() && !m.started
    modifies m
    ensures m.Valid() && m.started
    ensures first == second == Discover(m.config, remote).tools
    ensures ConnectCount(m.log) == ConnectCount(old(m.log)) + Attempted(m.config)
  {
    first := m.Start(remote);
    second := m.Start(remote);
    ConnectCountAppend(old(m.log), Discover(m.config, remote).events);
    DiscoverConnectCount(m.config, remote);
  }

  // ---------------------------------------------------------------------------
  // Properties of discovery

  lemma DiscoverPrefix(servers: seq<ServerEntry>, remote: Remote, i: nat)
    requires i < |servers|
    ensures Discover(servers[..i + 1], remote)
            == Record(Discover(servers[..i], remote), servers[i].name, ProcessServer(servers[i], remote(servers[i].name)))
  {
    assert servers[..i + 1][..i] == servers[..i];
  }

  lemma DiscoverStep(servers: seq<ServerEntry>, remote: Remote, i: nat, o: ServerOutcome)
    requires i < |servers| && o == ProcessServer(servers[i], remote(servers[i].name))
    ensures Discover(servers[..i + 1], remote).tools == Discover(servers[..i], remote).tools + Contributed(o)
    ensures Discover(servers[..i + 1], remote).contexts
            == Discover(servers[..i], remote).contexts + OpenedFor(servers[i].name, o)
    ensures Discover(servers[..i + 1], remote).events
            == Discover(servers[..i], remote).events + EventsFor(servers[i].name, o)
  {
    DiscoverPrefix(servers, remote, i);
  }

  /** One pass of `start`'s loop keeps the manager's state equal to the
      discovery over the servers processed so far. */
  lemma ConnectStep(
    servers: seq<ServerEntry>, remote: Remote, i: nat, base: seq<Event>,
    t0: seq<Adapter>, c0: seq<(string, Client)>, m0: map<string, Client>, l0: seq<Event>,
    t1: seq<Adapter>, c1: seq<(string, Client)>, m1: map<string, Client>, l1: seq<Event>)
    requires i < |servers|
    requires t0 == Discover(servers[..i], remote).tools
    requires c0 == Discover(servers[..i], remote).contexts
    requires m0 == ContextMap(c0)
    requires l0 == base + Discover(servers[..i], remote).events
    requires var o := ProcessServer(servers[i], remote(servers[i].name));
             && t1 == t0 + Contributed(o)
             && c1 == c0 + OpenedFor(servers[i].name, o)
             && m1 == (if o.ListFailed? || o.Listed? then m0[servers[i].name := o.client] else m0)
             && l1 == l0 + EventsFor(servers[i].name, o)
    ensures t1 == Discover(servers[..i + 1], remote).tools
    ensures c1 == Discover(servers[..i + 1], remote).contexts
    ensures m1 == ContextMap(c1)
    ensures l1 == base + Discover(servers[..i + 1], remote).events
  {
    var o := ProcessServer(servers[i], remote(servers[i].name));
    DiscoverStep(servers, remote, i, o);
    ContextMapExtend(c0, servers[i].name, o);
    AppendAssoc(base, Discover(servers[..i], remote).events, EventsFor(servers[i].name, o));
  }

  lemma NamesOfInit(servers: seq<ServerEntry>)
    requires servers != []
    ensures NamesOf(servers) == NamesOf(servers[..|servers| - 1]) + {servers[|servers| - 1].name}
  {
    assert servers == servers[..|servers| - 1] + [servers[|servers| - 1]];
  }

  lemma UniqueInit(servers: seq<ServerEntry>)
    requires UniqueNames(servers) && servers != []
    ensures UniqueNames(servers[..|servers| - 1])
    ensures servers[|servers| - 1].name !in NamesOf(servers[..|servers| - 1])
  {
    var init := servers[..|servers| - 1];
    forall e | e in init ensures e.name != servers[|servers| - 1].name {
      var k :| 0 <= k < |init| && init[k] == e;
      assert servers[k] == e;
    }
  }

  lemma ContextMapExtend(ctx: seq<(string, Client)>, name: string, o: ServerOutcome)
    ensures ContextMap(ctx + OpenedFor(name, o))
            == if o.ListFailed? || o.Listed? then ContextMap(ctx)[name := o.client] else ContextMap(ctx)
  {
    if o.ListFailed? || o.Listed? {
      assert (ctx + OpenedFor(name, o))[..|ctx|] == ctx;
    } else {
      assert ctx + OpenedFor(name, o) == ctx;
    }
  }

  lemma {:induction false} DiscoverContextNames(servers: seq<ServerEntry>, remote: Remote)
    ensures forall k :: 0 <= k < |Discover(servers, remote).contexts| ==>
              Discover(servers, remote).contexts[k].0 in NamesOf(servers)
  {
    if servers != [] {
      NamesOfInit(servers);
      DiscoverContextNames(servers[..|servers| - 1], remote);
    }
  }

  /** Opened clients are recorded under distinct names. */
  lemma {:induction false} DiscoverContextsDistinct(servers: seq<ServerEntry>, remote: Remote)
    requires UniqueNames(servers)
    ensures DistinctNames(Discover(servers, remote).contexts)
  {
    if servers != [] {
      var init := servers[..|servers| - 1];
      UniqueInit(servers);
      DiscoverContextsDistinct(init, remote);
      DiscoverContextNames(init, remote);
    }
  }

  /** A name that is not configured is never recorded. */
  lemma {:induction false} NotRecordedUnlessNamed(servers: seq<ServerEntry>, remote: Remote, name: string)
    requires name !in NamesOf(servers)
    ensures name !in ContextMap(Discover(servers, remote).contexts)
  {
    if servers != [] {
      var init := servers[..|servers| - 1];
      var last := servers[|servers| - 1];
      NamesOfInit(servers);
      NotRecordedUnlessNamed(init, remote, name);
      ContextMapExtend(Discover(init, remote).contexts, last.name, ProcessServer(last, remote(last.name)));
    }
  }

  /** A server is recorded as an open client exactly when its connect
      succeeded, even if listing its tools then failed; the client recorded
      is built over its transport and bound to it. */
  lemma {:induction false} RecordedIffConnected(servers: seq<ServerEntry>, remote: Remote, j: nat)
    requires UniqueNames(servers)
    requires j < |servers|
    ensures var e := servers[j];
            var clients := ContextMap(Discover(servers, remote).contexts);
            && (e.name in clients <==> Connects(e, remote(e.name)))
            && (e.name in clients ==>
                  clients[e.name] == Client(BuildTransport(e.name, e.config).value, remote(e.name)))
  {
    var init := servers[..|servers| - 1];
    var last := servers[|servers| - 1];
    UniqueInit(servers);
    ContextMapExtend(Discover(init, remote).contexts, last.name, ProcessServer(last, remote(last.name)));
    if j < |servers| - 1 {
      assert servers[j] == init[j];
      assert servers[j].name != last.name;
      RecordedIffConnected(init, remote, j);
    } else {
      NotRecordedUnlessNamed(init, remote, last.name);
    }
  }

  lemma {:induction false} OfServerAppend(xs: seq<Adapter>, ys: seq<Adapter>, name: string)
    ensures OfServer(xs + ys, name) == OfServer(xs, name) + OfServer(ys, name)
  {
    if ys == [] {
      assert xs + ys == xs;
    } else {
      assert (xs + ys)[..|xs + ys| - 1] == xs + ys[..|ys| - 1];
      OfServerAppend(xs, ys[..|ys| - 1], name);
    }
  }

  lemma {:induction false} OfServerUniform(xs: seq<Adapter>, server: string, name: string)
    requires forall k :: 0 <= k < |xs| ==> xs[k].serverName == server
    ensures OfServer(xs, name) == if server == name then xs else []
  {
    if xs != [] {
      OfServerUniform(xs[..|xs| - 1], server, name);
    }
  }

  /** A name that is not configured contributes no adapters. */
  lemma {:induction false} NoAdaptersUnlessNamed(servers: seq<ServerEntry>, remote: Remote, name: string)
    requires name !in NamesOf(servers)
    ensures OfServer(Discover(servers, remote).tools, name) == []
  {
    if servers != [] {
      var init := servers[..|servers| - 1];
      var last := servers[|servers| - 1];
      var o := ProcessServer(last, remote(last.name));
      NamesOfInit(servers);
      NoAdaptersUnlessNamed(init, remote, name);
      OfServerAppend(Discover(init, remote).tools, Contributed(o), name);
      OfServerUniform(Contributed(o), last.name, name);
    }
  }

  /** Failure isolation and order: the adapters of each configured server in
      a fresh start's list are exactly what that server contributes on its
      own, in its discovery order, whatever the other servers did. */
  lemma {:induction false} ServerContribution(servers: seq<ServerEntry>, remote: Remote, j: nat)
    requires UniqueNames(servers)
    requires j < |servers|
    ensures OfServer(Discover(servers, remote).tools, servers[j].name)
            == Contributed(ProcessServer(servers[j], remote(servers[j].name)))
  {
    var init := servers[..|servers| - 1];
    var last := servers[|servers| - 1];
    var o := ProcessServer(last, remote(last.name));
    var name := servers[j].name;
    UniqueInit(servers);
    OfServerAppend(Discover(init, remote).tools, Contributed(o), name);
    OfServerUniform(Contributed(o), last.name, name);
    if j < |servers| - 1 {
      assert servers[j] == init[j];
      assert name != last.name;
      ServerContribution(init, remote, j);
    } else {
      NoAdaptersUnlessNamed(init, remote, name);
    }
  }

  /** A server whose transport, connect or listing fails contributes no
      adapters; one that lists its tools contributes one adapter per tool,
      in order, carrying its name and the tool's name. */
  lemma ServerAdapters(servers: seq<ServerEntry>, remote: Remote, j: nat)
    requires UniqueNames(servers)
    requires j < |servers|
    ensures var e := servers[j];
            var b := remote(e.name);
            var mine := OfServer(Discover(servers, remote).tools, e.name);
            && (!(Connects(e, b) && b.listing.Some?) ==> mine == [])
            && (Connects(e, b) && b.listing.Some? ==>
                  && |mine| == |b.listing.value|
                  && forall k :: 0 <= k < |mine| ==>
                       mine[k].serverName == e.name && mine[k].toolName == b.listing.value[k].name)
  {
    ServerContribution(servers, remote, j);
  }

  lemma {:induction false} NoEventsUnlessNamed(servers: seq<ServerEntry>, remote: Remote, name: string)
    requires name !in NamesOf(servers)
    ensures forall k :: 0 <= k < |Discover(servers, remote).events| ==>
              Discover(servers, remote).events[k].server != name
  {
    if servers != [] {
      NamesOfInit(servers);
      NoEventsUnlessNamed(servers[..|servers| - 1], remote, name);
    }
  }

  lemma {:induction false} NoEventsForSkipped(servers: seq<ServerEntry>, remote: Remote, j: nat)
    requires UniqueNames(servers)
    requires j < |servers| && !servers[j].config.enabled
    ensures forall k :: 0 <= k < |Discover(servers, remote).events| ==>
              Discover(servers, remote).events[k].server != servers[j].name
  {
    var init := servers[..|servers| - 1];
    UniqueInit(servers);
    if j < |servers| - 1 {
      assert servers[j] == init[j];
      NoEventsForSkipped(init, remote, j);
    } else {
      NoEventsUnlessNamed(init, remote, servers[j].name);
    }
  }

  /** A disabled server is skipped entirely: nothing is done to it, no
      client is recorded for it and it contributes no adapters. */
  lemma DisabledServerUntouched(servers: seq<ServerEntry>, remote: Remote, j: nat)
    requires UniqueNames(servers)
    requires j < |servers| && !servers[j].config.enabled
    ensures forall k :: 0 <= k < |Discover(servers, remote).events| ==>
              Discover(servers, remote).events[k].server != servers[j].name
    ensures servers[j].name !in ContextMap(Discover(servers, remote).contexts)
    ensures OfServer(Discover(servers, remote).tools, servers[j].name) == []
  {
    NoEventsForSkipped(servers, remote, j);
    RecordedIffConnected(servers, remote, j);
    ServerContribution(servers, remote, j);
  }

  lemma {:induction false} DiscoverToolNames(servers: seq<ServerEntry>, remote: Remote)
    ensures forall a :: a in Discover(servers, remote).tools ==> a.serverName in NamesOf(servers)
  {
    if servers != [] {
      NamesOfInit(servers);
      DiscoverToolNames(servers[..|servers| - 1], remote);
    }
  }

  /** Every adapter of a fresh start is bound to the client recorded for its server. */
  lemma {:induction false} DiscoverToolsBound(servers: seq<ServerEntry>, remote: Remote)
    requires UniqueNames(servers)
    ensures var d := Discover(servers, remote);
            forall a :: a in d.tools ==>
              a.serverName in ContextMap(d.contexts) && ContextMap(d.contexts)[a.serverName] == a.client
  {
    if servers != [] {
      var init := servers[..|servers| - 1];
      var last := servers[|servers| - 1];
      var o := ProcessServer(last, remote(last.name));
      var before := Discover(init, remote);
      UniqueInit(servers);
      DiscoverToolsBound(init, remote);
      DiscoverToolNames(init, remote);
      ProcessServerCases(last, remote(last.name));
      forall a | a in Discover(servers, remote).tools
        ensures a.serverName in ContextMap(Discover(servers, remote).contexts)
        ensures ContextMap(Discover(servers, remote).contexts)[a.serverName] == a.client
      {
        ToolBoundAfterRecord(before, last.name, o, a);
      }
    }
  }

  lemma ToolBoundAfterRecord(before: Discovery, name: string, o: ServerOutcome, a: Adapter)
    requires forall x :: x in before.tools ==>
               x.serverName in ContextMap(before.contexts) && ContextMap(before.contexts)[x.serverName] == x.client
    requires forall x :: x in before.tools ==> x.serverName != name
    requires forall k :: 0 <= k < |Contributed(o)| ==>
               Contributed(o)[k].serverName == name && Contributed(o)[k].client == o.client
    requires a in Record(before, name, o).tools
    ensures a.serverName in ContextMap(Record(before, name, o).contexts)
    ensures ContextMap(Record(before, name, o).contexts)[a.serverName] == a.client
  {
    ContextMapExtend(before.contexts, name, o);
    if a !in before.tools {
      var k :| 0 <= k < |Contributed(o)| && Contributed(o)[k] == a;
    }
  }

  /** Every adapter of a fresh start has a description and a schema. */
  lemma {:induction false} DiscoverToolsDescribed(servers: seq<ServerEntry>, remote: Remote)
    ensures forall a :: a in Discover(servers, remote).tools ==> a.Described()
  {
    if servers != [] {
      var last := servers[|servers| - 1];
      DiscoverToolsDescribed(servers[..|servers| - 1], remote);
      ProcessServerCases(last, remote(last.name));
    }
  }

  lemma {:induction false} ConnectCountAppend(xs: seq<Event>, ys: seq<Event>)
    ensures ConnectCount(xs + ys) == ConnectCount(xs) + ConnectCount(ys)
  {
    if ys == [] {
      assert xs + ys == xs;
    } else {
      assert (xs + ys)[..|xs + ys| - 1] == xs + ys[..|ys| - 1];
      ConnectCountAppend(xs, ys[..|ys| - 1]);
    }
  }

  lemma EventsForConnects(name: string, o: ServerOutcome)
    ensures ConnectCount(EventsFor(name, o)) == if o.Skipped? || o.BadConfig? then 0 else 1
  {
    var one := [Connect(name)];
    assert ConnectCount(one) == ConnectCount(one[..0]) + 1 == 1;
    if o.ListFailed? || o.Listed? {
      var two := [Connect(name), ListTools(name)];
      assert two[..1] == one;
      assert ConnectCount(two) == ConnectCount(one) + 0;
    }
  }

  /** A fresh start attempts exactly one connect per enabled server whose
      transport builds, and none for any other. */
  lemma {:induction false} DiscoverConnectCount(servers: seq<ServerEntry>, remote: Remote)
    ensures ConnectCount(Discover(servers, remote).events) == Attempted(servers)
  {
    if servers != [] {
      var init := servers[..|servers| - 1];
      var last := servers[|servers| - 1];
      var o := ProcessServer(last, remote(last.name));
      DiscoverConnectCount(init, remote);
      ConnectCountAppend(Discover(init, remote).events, EventsFor(last.name, o));
      EventsForConnects(last.name, o);
    }
  }

  lemma {:induction false} ContextMapKeys(ctx: seq<(string, Client)>)
    ensures ContextMap(ctx).Keys == set k | 0 <= k < |ctx| :: ctx[k].0
  {
    if ctx != [] {
      var init := ctx[..|ctx| - 1];
      ContextMapKeys(init);
      assert (set k | 0 <= k < |ctx| :: ctx[k].0)
             == (set k | 0 <= k < |init| :: init[k].0) + {ctx[|ctx| - 1].0};
    }
  }

  /** `stop` closes exactly the recorded clients, each once. */
  lemma CloseEventsCoverRecorded(ctx: seq<(string, Client)>, name: string)
    requires DistinctNames(ctx)
    ensures (exists k :: 0 <= k < |ctx| && CloseEvents(ctx)[k].server == name) <==> name in ContextMap(ctx)
    ensures forall k, l :: 0 <= k < l < |ctx| ==> CloseEvents(ctx)[k].server != CloseEvents(ctx)[l].server
  {
    ContextMapKeys(ctx);
    if name in ContextMap(ctx) {
      var k :| 0 <= k < |ctx| && ctx[k].0 == name;
      assert CloseEvents(ctx)[k].server == name;
    }
  }

  /** After a fresh start, `stop` attempts a close for a configured server
      exactly when its connect succeeded. */
  lemma StopClosesConnected(servers: seq<ServerEntry>, remote: Remote, j: nat)
    requires UniqueNames(servers)
    requires j < |servers|
    ensures var closes := CloseEvents(Discover(servers, remote).contexts);
            (exists k :: 0 <= k < |closes| && closes[k].server == servers[j].name)
              <==> Connects(servers[j], remote(servers[j].name))
  {
    DiscoverContextsDistinct(servers, remote);
    CloseEventsCoverRecorded(Discover(servers, remote).contexts, servers[j].name);
    RecordedIffConnected(servers, remote, j);
  }
}
