/** The adapter that exposes one remote MCP tool through the agent's tool
    interface: a namespaced name, a description and a parameter schema with
    fallbacks, and an `Execute` that forwards the call and turns whatever
    comes back, a failure included, into one string. */
module McpToolAdapter {
  import opened McpCommon
  import opened McpRemote

  const NamePrefix: string := "mcp__"
  const NameSeparator: string := "__"
  const EmptyResult: string := "(empty result)"
  const ErrorPrefix: string := "Error calling MCP tool '"
  const ErrorServerPart: string := "' on server '"

  /** The schema used when a tool brings none: `{"type": "object", "properties": {}}`. */
  function DefaultSchema(): (s: JsonObject)
    ensures "type" in s && s["type"] == JStr("object")
    ensures "properties" in s && s["properties"] == JObj(map[])
    ensures s != map[]
  {
    map["type" := JStr("object"), "properties" := JObj(map[])]
  }

  /** The description used when a tool brings an empty one: it names the
      tool and then the server. */
  function DefaultDescription(toolName: string, serverName: string): (d: string)
    ensures d != ""
    ensures StartsWith(d, "MCP tool ")
    ensures OccursAt(d, toolName, |"MCP tool "|)
    ensures OccursAt(d, " from ", |"MCP tool "| + |toolName|)
    ensures EndsWith(d, serverName)
  {
    StartsWithConcat("MCP tool ", toolName + " from " + serverName);
    OccursBetween("MCP tool ", toolName, " from " + serverName);
    OccursBetween("MCP tool " + toolName, " from ", serverName);
    EndsWithConcat("MCP tool " + toolName + " from ", serverName);
    "MCP tool " + toolName + " from " + serverName
  }

  /** An adapter; nothing in it changes after construction. Adapters are
      meant to be built by `NewAdapter` only, which makes them `Described`. */
  datatype Adapter = Adapter(
    serverName: string,
    toolName: string,
    description: string,
    parameters: JsonObject,
    client: Client)
  {
    /** The public name, namespaced by the server: the prefix, then the
        server name, then the separator, then the tool name. */
    function Name(): (n: string)
      ensures StartsWith(n, NamePrefix)
      ensures OccursAt(n, serverName, |NamePrefix|)
      ensures OccursAt(n, NameSeparator, |NamePrefix| + |serverName|)
      ensures EndsWith(n, toolName)
    {
      StartsWithConcat(NamePrefix, serverName + NameSeparator + toolName);
      OccursBetween(NamePrefix, serverName, NameSeparator + toolName);
      OccursBetween(NamePrefix + serverName, NameSeparator, toolName);
      EndsWithConcat(NamePrefix + serverName + NameSeparator, toolName);
      NamePrefix + serverName + NameSeparator + toolName
    }

    /** What construction guarantees: a description and a schema are present. */
    predicate Described() {
      description != "" && parameters != map[]
    }
  }

  /** The adapter's constructor: an empty description or an empty schema is
      replaced by its default; everything else is kept as given. */
  function NewAdapter(
    serverName: string,
    toolName: string,
    toolDescription: string,
    inputSchema: JsonObject,
    client: Client
  ): (a: Adapter)
    ensures a.serverName == serverName && a.toolName == toolName && a.client == client
    ensures a.Described()
    ensures toolDescription != "" ==> a.description == toolDescription
    ensures toolDescription == "" ==> a.description == DefaultDescription(toolName, serverName)
    ensures inputSchema != map[] ==> a.parameters == inputSchema
    ensures inputSchema == map[] ==> a.parameters == DefaultSchema()
  {
    Adapter(
      serverName,
      toolName,
      if toolDescription != "" then toolDescription else DefaultDescription(toolName, serverName),
      if inputSchema != map[] then inputSchema else DefaultSchema(),
      client)
  }

  // ---------------------------------------------------------------------------
  // Names: the prefix and separator make a name decodable, provided the
  // server name cannot itself produce a separator.

  /** Every `_` of the server name is followed by a character other than `_`:
      no `__` inside it and no `_` at its end. */
  predicate SafeServerName(s: string) {
    forall i :: 0 <= i < |s| && s[i] == '_' ==> i + 1 < |s| && s[i + 1] != '_'
  }

  /** The first index at or after `from` where `__` starts, or `|s|` if none. */
  function FirstSeparator(s: string, from: nat): (i: nat)
    requires from <= |s|
    ensures from <= i <= |s|
    ensures i + 2 <= |s| ==> s[i] == '_' && s[i + 1] == '_'
    ensures i + 2 > |s| ==> i == |s|
    ensures forall k :: from <= k < i && k + 2 <= |s| ==> !(s[k] == '_' && s[k + 1] == '_')
    decreases |s| - from
  {
    if from + 2 > |s| then |s|
    else if s[from] == '_' && s[from + 1] == '_' then from
    else FirstSeparator(s, from + 1)
  }

  /** Splits a public name back into server name and tool name at the first
      separator after the prefix. */
  function ParseName(n: string): Option<(string, string)> {
    if !StartsWith(n, NamePrefix) then None
    else
      var rest := n[|NamePrefix|..];
      var i := FirstSeparator(rest, 0);
      if i + 2 <= |rest| then Some((rest[..i], rest[i + 2..])) else None
  }

  lemma SeparatorAfterSafeServer(s: string, t: string)
    requires SafeServerName(s)
    ensures FirstSeparator(s + NameSeparator + t, 0) == |s|
  {
    var w := s + NameSeparator + t;
    var i := FirstSeparator(w, 0);
    assert w[|s|] == '_' && w[|s| + 1] == '_';
  }

  /** The public name decodes to the adapter's server and tool names. */
  lemma NameRoundTrip(a: Adapter)
    requires SafeServerName(a.serverName)
    ensures ParseName(a.Name()) == Some((a.serverName, a.toolName))
  {
    var rest := a.serverName + NameSeparator + a.toolName;
    assert a.Name()[|NamePrefix|..] == rest;
    SeparatorAfterSafeServer(a.serverName, a.toolName);
    assert rest[..|a.serverName|] == a.serverName;
    assert rest[|a.serverName| + 2..] == a.toolName;
  }

  /** Adapters over safe server names collide only if they wrap the same
      tool of the same server. */
  lemma NameInjective(a: Adapter, b: Adapter)
    requires SafeServerName(a.serverName) && SafeServerName(b.serverName)
    requires a.Name() == b.Name()
    ensures a.serverName == b.serverName && a.toolName == b.toolName
  {
    NameRoundTrip(a);
    NameRoundTrip(b);
  }

  /** Without that condition two different (server, tool) pairs can share a
      public name: server `a__b` with tool `c`, and server `a` with tool `b__c`. */
  lemma NamesCanCollide(client: Client)
    ensures var x := NewAdapter("a__b", "c", "", map[], client);
            var y := NewAdapter("a", "b__c", "", map[], client);
            x.Name() == y.Name() && x.serverName != y.serverName
  {
    var x := NewAdapter("a__b", "c", "", map[], client);
    var y := NewAdapter("a", "b__c", "", map[], client);
    assert x.Name() == "mcp__a__b__c";
    assert y.Name() == "mcp__a__b__c";
  }

  // ---------------------------------------------------------------------------
  // Results: content blocks are rendered and joined with newlines.

  function Render(b: Block): string {
    match b
    case Text(t) => t
    case Other(r) => r
  }

  /** The rendered blocks, in order. */
  function Rendered(content: seq<Block>): (parts: seq<string>)
    ensures |parts| == |content|
    ensures forall k :: 0 <= k < |content| ==> parts[k] == Render(content[k])
  {
    if content == [] then [] else Rendered(content[..|content| - 1]) + [Render(content[|content| - 1])]
  }

  /** Python's `"\n".join(parts)`. */
  function JoinLines(parts: seq<string>): string {
    if |parts| == 0 then ""
    else if |parts| == 1 then parts[0]
    else parts[0] + "\n" + JoinLines(parts[1..])
  }

  /** Python's `s.split("\n")`: the pieces between newlines, at least one. */
  function SplitLines(s: string): (pieces: seq<string>)
    ensures |pieces| >= 1
  {
    if s == [] then [""]
    else if s[0] == '\n' then [""] + SplitLines(s[1..])
    else
      var rest := SplitLines(s[1..]);
      [[s[0]] + rest[0]] + rest[1..]
  }

  predicate NoNewline(p: string) {
    forall k :: 0 <= k < |p| ==> p[k] != '\n'
  }

  lemma {:induction false} SplitSingleLine(p: string)
    requires NoNewline(p)
    ensures SplitLines(p) == [p]
  {
    if p != [] {
      SplitSingleLine(p[1..]);
      assert [p[0]] + p[1..] == p;
    }
  }

  lemma {:induction false} SplitFirstLine(p: string, q: string)
    requires NoNewline(p)
    ensures SplitLines(p + "\n" + q) == [p] + SplitLines(q)
  {
    var s := p + "\n" + q;
    if p == [] {
      assert s == "\n" + q;
      assert s[1..] == q;
    } else {
      assert s[0] == p[0];
      assert s[1..] == p[1..] + "\n" + q;
      SplitFirstLine(p[1..], q);
      assert [p[0]] + p[1..] == p;
    }
  }

  /** Joining lines that hold no newline and splitting again gives them back. */
  lemma {:induction false} JoinSplitRoundTrip(parts: seq<string>)
    requires |parts| >= 1
    requires forall k :: 0 <= k < |parts| ==> NoNewline(parts[k])
    ensures SplitLines(JoinLines(parts)) == parts
  {
    if |parts| == 1 {
      SplitSingleLine(parts[0]);
    } else {
      JoinSplitRoundTrip(parts[1..]);
      SplitFirstLine(parts[0], JoinLines(parts[1..]));
    }
  }

  /** The text of a successful call: the sentinel for no blocks, otherwise the
      rendered blocks joined by newlines. */
  function ContentText(content: seq<Block>): (r: string)
    ensures |content| == 1 ==> r == Render(content[0])
    ensures |content| >= 2 ==> OccursAt(r, Render(content[0]) + "\n", 0)
  {
    if content == [] then EmptyResult
    else
      var parts := Rendered(content);
      StartsWithConcat(parts[0] + "\n", JoinLines(parts[1..]));
      JoinLines(parts)
  }

  /** The text of a failed call: it names the bare tool name and the server,
      and ends with the failure's message. */
  function CallErrorText(toolName: string, serverName: string, message: string): (r: string)
    ensures StartsWith(r, ErrorPrefix)
    ensures OccursAt(r, toolName, |ErrorPrefix|)
    ensures OccursAt(r, serverName, |ErrorPrefix| + |toolName| + |ErrorServerPart|)
    ensures EndsWith(r, message)
  {
    ErrorPrefix + toolName + ErrorServerPart + serverName + "': " + message
  }

  /** What `execute` returns once `call_tool` has answered `outcome`. */
  function ExecuteResult(a: Adapter, outcome: CallOutcome): (r: string)
    ensures outcome.Raised? ==> StartsWith(r, ErrorPrefix) && EndsWith(r, outcome.message)
    ensures outcome.Returned? && outcome.content == [] ==> r == EmptyResult
    ensures outcome.Returned? && |outcome.content| == 1 ==> r == Render(outcome.content[0])
  {
    match outcome
    case Raised(message) => CallErrorText(a.toolName, a.serverName, message)
    case Returned(content) => ContentText(content)
  }

  /** A non-empty result whose blocks hold no newline can be split back into
      exactly the rendered blocks; the sentinel stands only for no blocks. */
  lemma ContentTextRecoversBlocks(content: seq<Block>)
    requires forall k :: 0 <= k < |content| ==> NoNewline(Render(content[k]))
    ensures content == [] ==> ContentText(content) == EmptyResult
    ensures content != [] ==> SplitLines(ContentText(content)) == Rendered(content)
  {
    if content != [] {
      JoinSplitRoundTrip(Rendered(content));
    }
  }

  lemma {:induction false} JoinEmptyLines(parts: seq<string>)
    requires |parts| >= 1
    requires forall k :: 0 <= k < |parts| ==> parts[k] == ""
    ensures JoinLines(parts) == seq(|parts| - 1, _ => '\n')
  {
    if |parts| > 1 {
      JoinEmptyLines(parts[1..]);
      assert "" + "\n" + seq(|parts| - 2, _ => '\n') == seq(|parts| - 1, _ => '\n');
    }
  }

  /** `n >= 1` blocks of empty text give `n - 1` newlines, never the sentinel. */
  lemma EmptyTextBlocks(content: seq<Block>)
    requires |content| >= 1
    requires forall k :: 0 <= k < |content| ==> content[k] == Text("")
    ensures ContentText(content) == seq(|content| - 1, _ => '\n')
    ensures ContentText(content) != EmptyResult
  {
    JoinEmptyLines(Rendered(content));
    var r := ContentText(content);
    if |content| > 1 {
      assert r[0] == '\n' && EmptyResult[0] == '(';
    } else {
      assert |r| == 0;
    }
  }

  /** `execute(**kwargs)`: forwards the bare tool name and the arguments
      unchanged to the adapter's client, renders the blocks of the answer in
      order, and turns a failure into an error text; it never raises. */
  method Execute(a: Adapter, arguments: JsonObject) returns (r: string)
    ensures r == ExecuteResult(a, a.client.behaviour.call(a.toolName, arguments))
  {
    var outcome := a.client.behaviour.call(a.toolName, arguments);
    match outcome
    case Raised(message) =>
      r := CallErrorText(a.toolName, a.serverName, message);
    case Returned(content) =>
      var parts: seq<string> := [];
      var i := 0;
      while i < |content|
        invariant 0 <= i <= |content|
        invariant parts == Rendered(content[..i])
      {
        assert content[..i + 1][..i] == content[..i];
        if content[i].Text? {
          parts := parts + [content[i].text];
        } else {
          parts := parts + [content[i].rendered];
        }
        i := i + 1;
      }
      assert content[..i] == content;
      r := if parts != [] then JoinLines(parts) else EmptyResult;
  }
}
