/**
 * The tool router (ezagent/tools/manager.py): splits an agent's configured
 * tool names into tool endpoints and sibling agents, connects every endpoint
 * and namespaces its operations as `<endpoint>__<operation>`, registers the
 * synthetic `agent_<name>` delegation schemas, dispatches calls by routing
 * table, flattens results, and disconnects every client best-effort.
 *
 * The MCP server behind an endpoint is an oracle: `listing` maps a tool
 * directory to the operations its server lists; a directory absent from it
 * has no `main.py`.
 */
module ToolRouter {
  import opened Wrappers
  import opened Json
  import opened Strings
  import opened Llm
  import opened OrderedMap

  /** An operation as an MCP server lists it. */
  datatype McpTool = McpTool(name: string, description: Option<string>, inputSchema: Option<Json>)

  /** Where a qualified name is dispatched: endpoint key and the operation's own name. */
  datatype Route = Route(endpoint: string, operation: string)

  datatype Router = Router(
    toolNames: seq<string>,
    agentToolNames: seq<string>,
    externalPaths: seq<Entry<string, string>>,
    clients: seq<Entry<string, string>>,
    schemas: seq<Entry<string, ToolSchema>>,
    routes: seq<Entry<string, Route>>)

  /** The dict-shaped parts of a router are real dicts. */
  predicate Valid(r: Router) {
    UniqueKeys(r.clients) && UniqueKeys(r.schemas) && UniqueKeys(r.routes) && UniqueKeys(r.externalPaths)
  }

  // ----- partition of the configured names -----

  function NotIn(names: seq<string>, agents: seq<string>): seq<string> {
    if |names| == 0 then []
    else (if names[0] in agents then [] else [names[0]]) + NotIn(names[1..], agents)
  }

  function OnlyIn(names: seq<string>, agents: seq<string>): seq<string> {
    if |names| == 0 then []
    else (if names[0] in agents then [names[0]] else []) + OnlyIn(names[1..], agents)
  }

  /** The tool half holds exactly the names that are not agents; the agent half exactly those that are. */
  lemma {:induction false} PartitionMembers(names: seq<string>, agents: seq<string>, x: string)
    ensures x in NotIn(names, agents) <==> x in names && x !in agents
    ensures x in OnlyIn(names, agents) <==> x in names && x in agents
    decreases |names|
  {
    if |names| > 0 {
      PartitionMembers(names[1..], agents, x);
      assert x in names <==> x == names[0] || x in names[1..];
    }
  }

  /** Both halves keep their input order: each distributes over concatenation of the input. */
  lemma {:induction false} NotInAppend(a: seq<string>, b: seq<string>, agents: seq<string>)
    ensures NotIn(a + b, agents) == NotIn(a, agents) + NotIn(b, agents)
    decreases |a|
  {
    if |a| == 0 {
      assert a + b == b;
    } else {
      assert (a + b)[0] == a[0];
      assert (a + b)[1..] == a[1..] + b;
      NotInAppend(a[1..], b, agents);
    }
  }

  lemma {:induction false} OnlyInAppend(a: seq<string>, b: seq<string>, agents: seq<string>)
    ensures OnlyIn(a + b, agents) == OnlyIn(a, agents) + OnlyIn(b, agents)
    decreases |a|
  {
    if |a| == 0 {
      assert a + b == b;
    } else {
      assert (a + b)[0] == a[0];
      assert (a + b)[1..] == a[1..] + b;
      OnlyInAppend(a[1..], b, agents);
    }
  }

  /** Together the halves hold every configured name exactly as often as the input does. */
  lemma {:induction false} PartitionCovers(names: seq<string>, agents: seq<string>)
    ensures multiset(NotIn(names, agents)) + multiset(OnlyIn(names, agents)) == multiset(names)
  {
    if |names| > 0 {
      var rest := names[1..];
      PartitionCovers(rest, agents);
      assert names == [names[0]] + rest;
    }
  }

  /** `ToolManager.__init__`. */
  function NewRouter(toolNames: seq<string>, agentNames: seq<string>, externalPaths: seq<Entry<string, string>>): (r: Router)
    requires UniqueKeys(externalPaths)
    ensures Valid(r)
    ensures forall x :: x in r.toolNames <==> x in toolNames && x !in agentNames
    ensures forall x :: x in r.agentToolNames <==> x in toolNames && x in agentNames
    ensures r.clients == [] && r.schemas == [] && r.routes == []
    ensures r.toolNames == NotIn(toolNames, agentNames) && r.agentToolNames == OnlyIn(toolNames, agentNames)
    ensures r.externalPaths == externalPaths
  {
    var tools := NotIn(toolNames, agentNames);
    var agents := OnlyIn(toolNames, agentNames);
    forall x ensures (x in tools <==> x in toolNames && x !in agentNames) && (x in agents <==> x in toolNames && x in agentNames) {
      PartitionMembers(toolNames, agentNames, x);
    }
    Router(tools, agents, externalPaths, [], [], [])
  }

  // ----- schemas and qualified names -----

  const Separator := "__"

  function QualifiedName(endpoint: string, operation: string): string {
    endpoint + Separator + operation
  }

  /** Splits a name at its first "__", the inverse that routing by name would need. */
  function SplitQualified(q: string): Option<(string, string)> {
    match FindFrom(q, Separator, 0)
    case Some(i) => Some((q[..i], q[i + 2..]))
    case None => None
  }

  /**
   * Splitting recovers the pair whenever the endpoint key neither contains
   * "__" nor ends in "_" (either would put an earlier "__" in the name).
   */
  lemma QualifiedNameSplits(endpoint: string, operation: string)
    requires !Contains(endpoint + "_", Separator)
    ensures SplitQualified(QualifiedName(endpoint, operation)) == Some((endpoint, operation))
  {
    var q := QualifiedName(endpoint, operation);
    var n := |endpoint|;
    assert OccursAt(q, Separator, n);
    forall k | 0 <= k < n ensures !OccursAt(q, Separator, k) {
      if OccursAt(q, Separator, k) {
        assert q[k] == '_' && q[k + 1] == '_';
        assert (endpoint + "_")[k..k + 2] == q[k..k + 2];
        assert OccursAt(endpoint + "_", Separator, k);
      }
    }
    FindFromDecidesContains(q, Separator);
    var i := FindFrom(q, Separator, 0).value;
    assert i == n;
    assert q[..n] == endpoint;
    assert q[n + 2..] == operation;
  }

  /** An endpoint key ending in "_" already breaks the split. */
  lemma TrailingUnderscoreBreaksSplit()
    ensures SplitQualified(QualifiedName("a_", "b")) == Some(("a", "_b"))
  {
    var q := QualifiedName("a_", "b");
    assert q == "a___b";
    assert q[1..3] == Separator;
    assert OccursAt(q, Separator, 1);
    assert q[0..2] == "a_";
    assert !OccursAt(q, Separator, 0);
    assert FindFrom(q, Separator, 0) == Some(1);
    assert q[..1] == "a" && q[3..] == "_b";
  }

  /** Qualified names are not injective once keys or operations contain "__". */
  lemma QualifiedNamesCollide()
    ensures QualifiedName("a__b", "c") == QualifiedName("a", "b__c")
    ensures Route("a__b", "c") != Route("a", "b__c")
  {
  }

  const DefaultInputSchema := JObj([Field("type", JStr("object")), Field("properties", JObj([]))])

  /** `_mcp_to_anthropic_schema`. */
  function ToSchema(endpoint: string, tool: McpTool): (s: ToolSchema)
    ensures s.name == QualifiedName(endpoint, tool.name)
    ensures s.description == (if tool.description.Some? then tool.description.value else "")
    ensures tool.inputSchema.Some? && Truthy(tool.inputSchema.value) ==> s.inputSchema == tool.inputSchema.value
    ensures !(tool.inputSchema.Some? && Truthy(tool.inputSchema.value)) ==> s.inputSchema == DefaultInputSchema
  {
    ToolSchema(
      QualifiedName(endpoint, tool.name),
      if tool.description.Some? then tool.description.value else "",
      if tool.inputSchema.Some? && Truthy(tool.inputSchema.value) then tool.inputSchema.value else DefaultInputSchema)
  }

  const AgentToolPrefix := "agent_"

  /** An object schema whose one required property, `message`, is a string. */
  predicate MessageSchema(j: Json) {
    j.JObj? && Lookup(j.fields, "type") == Some(JStr("object")) &&
    Lookup(j.fields, "required") == Some(JArr([JStr("message")])) &&
    match Lookup(j.fields, "properties")
    case Some(JObj(props)) =>
      (match Lookup(props, "message")
       case Some(JObj(m)) => Lookup(m, "type") == Some(JStr("string"))
       case _ => false)
    case _ => false
  }

  /** The fixed delegation schema: one required string field `message`. */
  function AgentSchema(agent: string): (s: ToolSchema)
    ensures s.name == AgentToolPrefix + agent
    ensures MessageSchema(s.inputSchema)
  {
    ToolSchema(
      AgentToolPrefix + agent,
      "Delegate a task to the '" + agent + "' agent. Send a message and get back the agent's response.",
      JObj([
        Field("type", JStr("object")),
        Field("properties", JObj([Field("message", JObj([
          Field("type", JStr("string")),
          Field("description", JStr("The message or task to send to the agent."))]))])),
        Field("required", JArr([JStr("message")]))]))
  }

  // ----- connect -----

  /** Endpoints in connection order: project tools under `<project>/tools/<name>`, then external ones. */
  function Endpoints(r: Router, projectDir: string): seq<Entry<string, string>> {
    seq(|r.toolNames|, k requires 0 <= k < |r.toolNames| => Entry(r.toolNames[k], projectDir + "/tools/" + r.toolNames[k]))
      + r.externalPaths
  }

  /** The first endpoint whose directory has no server, if any. */
  function MissingEndpoint(eps: seq<Entry<string, string>>, listing: map<string, seq<McpTool>>): (r: Option<string>)
    ensures r.None? <==> forall k :: 0 <= k < |eps| ==> eps[k].value in listing
    ensures r.Some? ==> r.value !in listing
  {
    if |eps| == 0 then None
    else if eps[0].value !in listing then Some(eps[0].value)
    else
      var rest := MissingEndpoint(eps[1..], listing);
      assert forall k :: 1 <= k < |eps| ==> eps[1..][k - 1] == eps[k];
      rest
  }

  function RouteEntriesOf(key: string, tools: seq<McpTool>): (r: seq<Entry<string, Route>>)
    ensures |r| == |tools|
    ensures forall k :: 0 <= k < |tools| ==> r[k] == Entry(QualifiedName(key, tools[k].name), Route(key, tools[k].name))
  {
    seq(|tools|, k requires 0 <= k < |tools| => Entry(QualifiedName(key, tools[k].name), Route(key, tools[k].name)))
  }

  function SchemaEntriesOf(key: string, tools: seq<McpTool>): (r: seq<Entry<string, ToolSchema>>)
    ensures |r| == |tools|
    ensures forall k :: 0 <= k < |tools| ==> r[k].key == r[k].value.name && r[k].value == ToSchema(key, tools[k])
  {
    seq(|tools|, k requires 0 <= k < |tools| => Entry(QualifiedName(key, tools[k].name), ToSchema(key, tools[k])))
  }

  /** Every (qualified name, route) assignment connecting the endpoints makes, in order. */
  function RouteEntries(eps: seq<Entry<string, string>>, listing: map<string, seq<McpTool>>): seq<Entry<string, Route>>
    requires forall k :: 0 <= k < |eps| ==> eps[k].value in listing
  {
    if |eps| == 0 then []
    else RouteEntriesOf(eps[0].key, listing[eps[0].value]) + RouteEntries(eps[1..], listing)
  }

  function SchemaEntries(eps: seq<Entry<string, string>>, listing: map<string, seq<McpTool>>): seq<Entry<string, ToolSchema>>
    requires forall k :: 0 <= k < |eps| ==> eps[k].value in listing
  {
    if |eps| == 0 then []
    else SchemaEntriesOf(eps[0].key, listing[eps[0].value]) + SchemaEntries(eps[1..], listing)
  }

  function AgentSchemaEntries(agents: seq<string>): (r: seq<Entry<string, ToolSchema>>)
    ensures |r| == |agents|
    ensures forall k :: 0 <= k < |agents| ==> r[k] == Entry(AgentToolPrefix + agents[k], AgentSchema(agents[k]))
  {
    seq(|agents|, k requires 0 <= k < |agents| => Entry(AgentToolPrefix + agents[k], AgentSchema(agents[k])))
  }

  function MainPyMissing(dir: string): string {
    "Tool main.py not found: " + dir + "/main.py"
  }

  /**
   * `connect()`. The source interleaves the per-endpoint updates of the
   * client, schema and routing dicts; each dict still receives its
   * assignments in the same order, which is all that fixes its final value.
   */
  function Connect(r: Router, projectDir: string, listing: map<string, seq<McpTool>>): (res: Result<Router, string>)
    requires Valid(r)
    ensures res.Success? ==> Valid(res.value)
    ensures res.Failure? <==> MissingEndpoint(Endpoints(r, projectDir), listing).Some?
    ensures res.Failure? ==> res.error == MainPyMissing(MissingEndpoint(Endpoints(r, projectDir), listing).value)
    ensures res.Success? ==> res.value.toolNames == r.toolNames && res.value.agentToolNames == r.agentToolNames
  {
    var eps := Endpoints(r, projectDir);
    match MissingEndpoint(eps, listing)
    case Some(dir) => Failure(MainPyMissing(dir))
    case None => Success(ConnectAll(r, eps, listing))
  }

  /** The router once every endpoint in `eps` has been connected. */
  function ConnectAll(r: Router, eps: seq<Entry<string, string>>, listing: map<string, seq<McpTool>>): (c: Router)
    requires Valid(r)
    requires forall k :: 0 <= k < |eps| ==> eps[k].value in listing
    ensures Valid(c)
    ensures c.toolNames == r.toolNames && c.agentToolNames == r.agentToolNames
  {
    r.(
      clients := PutAll(r.clients, eps),
      routes := PutAll(r.routes, RouteEntries(eps, listing)),
      schemas := PutAll(r.schemas, SchemaEntries(eps, listing) + AgentSchemaEntries(r.agentToolNames)))
  }

  /** `get_tool_schemas()`: the schema dict's values in insertion order. */
  function ToolSchemas(r: Router): seq<ToolSchema> {
    Values(r.schemas)
  }

  /** A qualified name routes to the last (endpoint, operation) pair that produced it; earlier ones are overwritten. */
  lemma ConnectRoutesLastWins(r: Router, projectDir: string, listing: map<string, seq<McpTool>>, q: string)
    requires Valid(r) && r.routes == []
    requires Connect(r, projectDir, listing).Success?
    ensures Find(Connect(r, projectDir, listing).value.routes, q)
      == LastBinding(RouteEntries(Endpoints(r, projectDir), listing), q)
  {
    PutAllFind(r.routes, RouteEntries(Endpoints(r, projectDir), listing), q);
  }

  lemma {:induction false} RouteEntriesFromClients(eps: seq<Entry<string, string>>, listing: map<string, seq<McpTool>>, k: nat)
    requires forall i :: 0 <= i < |eps| ==> eps[i].value in listing
    requires k < |RouteEntries(eps, listing)|
    ensures HasKey(eps, RouteEntries(eps, listing)[k].value.endpoint)
    decreases |eps|
  {
    var first := RouteEntriesOf(eps[0].key, listing[eps[0].value]);
    if k >= |first| {
      RouteEntriesFromClients(eps[1..], listing, k - |first|);
      var i :| 0 <= i < |eps[1..]| && eps[1..][i].key == RouteEntries(eps[1..], listing)[k - |first|].value.endpoint;
      assert eps[i + 1] == eps[1..][i];
    }
  }

  lemma {:induction false} LastBindingIsEntry<K, V>(es: seq<Entry<K, V>>, q: K)
    requires LastBinding(es, q).Some?
    ensures exists k :: 0 <= k < |es| && es[k] == Entry(q, LastBinding(es, q).value)
    decreases |es|
  {
    if es[|es| - 1].key != q {
      LastBindingIsEntry(es[..|es| - 1], q);
      var k :| 0 <= k < |es| - 1 && es[..|es| - 1][k] == Entry(q, LastBinding(es, q).value);
      assert es[k] == es[..|es| - 1][k];
    }
  }

  /** Every route of a freshly connected router leads to a connected client, so dispatch never misses its client. */
  lemma ConnectRoutesHaveClients(r: Router, projectDir: string, listing: map<string, seq<McpTool>>, q: string)
    requires Valid(r) && r.routes == []
    requires Connect(r, projectDir, listing).Success?
    requires Find(Connect(r, projectDir, listing).value.routes, q).Some?
    ensures Find(Connect(r, projectDir, listing).value.clients, Find(Connect(r, projectDir, listing).value.routes, q).value.endpoint).Some?
  {
    var eps := Endpoints(r, projectDir);
    var es := RouteEntries(eps, listing);
    ConnectRoutesLastWins(r, projectDir, listing, q);
    PutAllFind(r.routes, es, q);
    LastBindingIsEntry(es, q);
    var k :| 0 <= k < |es| && es[k] == Entry(q, LastBinding(es, q).value);
    RouteEntriesFromClients(eps, listing, k);
    PutAllHasKey(r.clients, eps, es[k].value.endpoint);
  }

  /** After connecting, each delegation name maps to its synthetic schema (they are registered last). */
  lemma ConnectRegistersAgentSchemas(r: Router, projectDir: string, listing: map<string, seq<McpTool>>, k: nat)
    requires Valid(r)
    requires Connect(r, projectDir, listing).Success?
    requires k < |r.agentToolNames|
    ensures Find(Connect(r, projectDir, listing).value.schemas, AgentToolPrefix + r.agentToolNames[k])
      == Some(AgentSchema(r.agentToolNames[k]))
  {
    var eps := Endpoints(r, projectDir);
    assert Connect(r, projectDir, listing).value == ConnectAll(r, eps, listing);
    ConnectAllAgentSchemas(r, eps, listing, k);
  }

  lemma ConnectAllAgentSchemas(r: Router, eps: seq<Entry<string, string>>, listing: map<string, seq<McpTool>>, k: nat)
    requires Valid(r)
    requires forall i :: 0 <= i < |eps| ==> eps[i].value in listing
    requires k < |r.agentToolNames|
    ensures Find(ConnectAll(r, eps, listing).schemas, AgentToolPrefix + r.agentToolNames[k])
      == Some(AgentSchema(r.agentToolNames[k]))
  {
    var a := r.agentToolNames[k];
    var agentEs := AgentSchemaEntries(r.agentToolNames);
    var all := SchemaEntries(eps, listing) + agentEs;
    PutAllFind(r.schemas, all, AgentToolPrefix + a);
    LastBindingAgentEntries(r.agentToolNames, k);
    LastBindingSuffix(SchemaEntries(eps, listing), agentEs, AgentToolPrefix + a);
  }

  lemma {:induction false} LastBindingSuffix<K, V>(a: seq<Entry<K, V>>, b: seq<Entry<K, V>>, q: K)
    requires LastBinding(b, q).Some?
    ensures LastBinding(a + b, q) == LastBinding(b, q)
    decreases |b|
  {
    var ab := a + b;
    assert ab[|ab| - 1] == b[|b| - 1];
    if b[|b| - 1].key != q {
      assert ab[..|ab| - 1] == a + b[..|b| - 1];
      LastBindingSuffix(a, b[..|b| - 1], q);
    }
  }

  lemma LastBindingAgentEntries(agents: seq<string>, k: nat)
    requires k < |agents|
    ensures LastBinding(AgentSchemaEntries(agents), AgentToolPrefix + agents[k]) == Some(AgentSchema(agents[k]))
  {
    var es := AgentSchemaEntries(agents);
    forall i | 0 <= i < |es| && es[i].key == AgentToolPrefix + agents[k]
      ensures es[i].value == AgentSchema(agents[k])
    {
      assert agents[i] == (AgentToolPrefix + agents[i])[6..];
      assert agents[k] == (AgentToolPrefix + agents[k])[6..];
    }
    LastBindingWhenAllAgree(es, AgentToolPrefix + agents[k], AgentSchema(agents[k]), k);
  }

  /** When every entry for `q` carries `v` and one exists, the last binding is `v`. */
  lemma {:induction false} LastBindingWhenAllAgree<K, V>(es: seq<Entry<K, V>>, q: K, v: V, k: nat)
    requires k < |es| && es[k].key == q
    requires forall i :: 0 <= i < |es| && es[i].key == q ==> es[i].value == v
    ensures LastBinding(es, q) == Some(v)
    decreases |es|
  {
    if es[|es| - 1].key != q {
      assert k < |es| - 1;
      var init := es[..|es| - 1];
      assert init[k] == es[k];
      LastBindingWhenAllAgree(init, q, v, k);
    }
  }

  // ----- dispatch -----

  /** `is_agent_tool`: the first delegation name `a` with `name == "agent_" + a`. */
  function IsAgentTool(agentToolNames: seq<string>, name: string): (r: Option<string>)
    ensures r.Some? <==> exists a :: a in agentToolNames && name == AgentToolPrefix + a
    ensures r.Some? ==> r.value in agentToolNames && name == AgentToolPrefix + r.value
  {
    if |agentToolNames| == 0 then None
    else if name == AgentToolPrefix + agentToolNames[0] then Some(agentToolNames[0])
    else IsAgentTool(agentToolNames[1..], name)
  }

  /** The delegation target is determined by the name alone, because "agent_" + a is injective in a. */
  lemma IsAgentToolExact(agentToolNames: seq<string>, a: string)
    requires a in agentToolNames
    ensures IsAgentTool(agentToolNames, AgentToolPrefix + a) == Some(a)
  {
    var r := IsAgentTool(agentToolNames, AgentToolPrefix + a);
    assert AgentToolPrefix + r.value == AgentToolPrefix + a;
    assert r.value == (AgentToolPrefix + r.value)[6..];
  }

  /** The name a delegation schema advertises routes back to its agent. */
  lemma AgentSchemaRoutesBack(agentToolNames: seq<string>, a: string)
    requires a in agentToolNames
    ensures IsAgentTool(agentToolNames, AgentSchema(a).name) == Some(a)
  {
    IsAgentToolExact(agentToolNames, a);
  }

  function UnknownToolError(name: string): string {
    Encode(ErrorObject("Unknown tool: " + name))
  }

  /** What `call_tool` does with a name, before any MCP traffic. */
  datatype Dispatch =
    | Unrouted(reply: string)
    | Forward(route: Route)
    | NoClient(key: string)

  /** `call_tool`'s lookup: unknown names are answered locally, routed names go to their client. */
  function CallTool(r: Router, name: string): (d: Dispatch)
    ensures d.Unrouted? <==> !HasKey(r.routes, name)
    ensures d.Unrouted? ==> d.reply == UnknownToolError(name)
    ensures d.Forward? ==> Find(r.routes, name) == Some(d.route) && HasKey(r.clients, d.route.endpoint)
    ensures d.NoClient? ==> !HasKey(r.clients, d.key)
  {
    match Find(r.routes, name)
    case None => Unrouted(UnknownToolError(name))
    case Some(route) => if HasKey(r.clients, route.endpoint) then Forward(route) else NoClient(route.endpoint)
  }

  /** On a freshly connected router a routed name always reaches its client. */
  lemma ConnectedDispatchReachesClient(r: Router, projectDir: string, listing: map<string, seq<McpTool>>, name: string)
    requires Valid(r) && r.routes == []
    requires Connect(r, projectDir, listing).Success?
    ensures !CallTool(Connect(r, projectDir, listing).value, name).NoClient?
  {
    var c := Connect(r, projectDir, listing).value;
    if Find(c.routes, name).Some? {
      ConnectRoutesHaveClients(r, projectDir, listing, name);
    }
  }

  /** One content item of an MCP call result; `repr` is its `str()`. */
  datatype ContentItem = TextItem(text: string) | OtherItem(repr: string)

  /** An MCP call result: its content list if it has one, and its own `str()`. */
  datatype CallResult = CallResult(content: Option<seq<ContentItem>>, repr: string)

  function ItemText(item: ContentItem): string {
    match item
    case TextItem(t) => t
    case OtherItem(repr) => repr
  }

  function ItemTexts(items: seq<ContentItem>): (r: seq<string>)
    ensures |r| == |items|
    ensures forall k :: 0 <= k < |items| ==> r[k] == ItemText(items[k])
  {
    seq(|items|, k requires 0 <= k < |items| => ItemText(items[k]))
  }

  /** Flattens a call result: item texts joined by newlines, or the result's `str()` when there are none. */
  function Flatten(result: CallResult): (r: string)
    ensures result.content.None? || result.content.value == [] ==> r == result.repr
    ensures result.content.Some? && |result.content.value| == 1 ==> r == ItemText(result.content.value[0])
    ensures result.content.Some? && result.content.value != [] ==> r == Join(ItemTexts(result.content.value), "\n")
  {
    if result.content.Some? && result.content.value != [] then Join(ItemTexts(result.content.value), "\n")
    else result.repr
  }

  /** When no item text holds a newline, the items can be read back from the flattened text. */
  lemma FlattenRecoversItems(result: CallResult)
    requires result.content.Some? && result.content.value != []
    requires forall k :: 0 <= k < |result.content.value| ==> '\n' !in ItemText(result.content.value[k])
    ensures Split(Flatten(result), '\n') == ItemTexts(result.content.value)
  {
    SplitJoin(ItemTexts(result.content.value), '\n');
  }

  /** `disconnect()`: every client is closed, a failing close is swallowed, the client dict ends empty. */
  function Disconnect(r: Router, failing: set<string>): (res: (Router, seq<string>))
    ensures res.0.clients == []
    ensures res.1 == Keys(r.clients)
    ensures res.0 == r.(clients := [])
  {
    (r.(clients := []), Keys(r.clients))
  }

  /** Disconnecting twice closes nothing the second time. */
  lemma DisconnectIdempotent(r: Router, f1: set<string>, f2: set<string>)
    ensures Disconnect(Disconnect(r, f1).0, f2).1 == []
    ensures Disconnect(Disconnect(r, f1).0, f2).0 == Disconnect(r, f1).0
  {
  }
}
