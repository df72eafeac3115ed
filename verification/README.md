# ezagent in Dafny

ezagent is a low-code agent host: a project directory holds `agents.yml`, tool
servers under `tools/` and skill documents under `skills/`. A daemon starts every
configured agent and listens on a Unix socket. It also fires cron-scheduled runs.
The `ez` command line talks to the daemon. Each agent runs a tool-use loop against
an LLM provider (Anthropic or Gemini). It dispatches tool calls to MCP tool servers,
or delegates them to sibling agents through the daemon.

This project models that core as pure functions over immutable data and proves
what the code promises:

- **Agent loop** (`agent.dfy`, module `Agent`):
  - the system prompt;
  - the `run` loop with its recursion cutoff;
  - the layout of assistant and tool-result messages, with ids paired in order;
  - `_execute_tool` with delegation one level deeper;
  - debug events and their truncation.
- **Tool router** (`tool_router.dfy`, module `ToolRouter`):
  - the tool/agent partition;
  - qualified `endpoint__op` names and the routing dict;
  - synthetic `agent_<name>` schemas, `is_agent_tool` and `call_tool`;
  - result flattening and `disconnect`.
- **Daemon** (`daemon.dfy`, `protocol.dfy`):
  - the provider cache;
  - start-up and `_build_schedule`;
  - one scheduler wake-up;
  - scheduled runs and delegation;
  - the per-connection reply protocol, and the client's reading of it.
- **Configuration** (`config.dfy`, `agent_graph.dfy`):
  - `split_csv` and the per-agent checks;
  - the depth-first cycle search, proved to report a cycle exactly when the reference graph has one;
  - socket and pid paths, `find_project_dir` and `load_config`.
- **Git externals** (`external.py`, modelled in `external.dfy`): short names, `.gitignore` editing and `resolve_externals`.
- **CLI** (`cli.dfy`): command fallback, the "insert `run`" rewrite, the message join and the status row.
- **Providers** (`llm_anthropic.dfy`, `llm_google.dfy`, `llm_factory.dfy`, `llm_base.dfy`): request assembly, message and tool translation, response parsing, and `create_provider`.
- **Built-in tools** (`memory_tool.dfy`, `web_search_tool.dfy`, `http_tool.dfy`, `html_text.dfy`):
  - memory collection naming and filter expressions;
  - web-search provider lookup and result capping;
  - the HTTP method allow-list and body handling;
  - HTML stripping and truncation.
- **Shared vocabulary**:
  - `json.dfy`: JSON values and `json.dumps`;
  - `ordered_map.dfy`: insertion-ordered Python dicts;
  - `strings.dfy`: `strip`, `split`, `join`, `sorted`, padding;
  - `wrappers.dfy`: `Option` and `Result`.

Everything outside the process becomes a parameter. The oracles are:

- the provider's replies and the MCP servers' outputs (the `Agent.Tapes`, consumed in call order);
- the file system (sets of existing paths, maps from path to content);
- the environment (a map);
- croniter (`cronValid`, `cronNext`);
- `uuid4` and the MD5 digest (given strings);
- JSON decoding and HTTP (`decode`, `fetch`, `send` functions).

### Where the code and its description differ

In the first two cases the code as written raises on the first agent it starts, and the model follows the evident intent instead (each is listed again under "## Left out"). In the third it follows the code.

- **Extra keyword arguments**: `daemon.py:62-71` passes `external_tool_paths` and `external_skill_paths` to `Agent`, whose constructor (`agent.py:27-37`) accepts neither, so the call raises `TypeError`; and `agent.py:64-66` passes no external paths to `ToolManager`. The model forwards the tool paths to the router, as `ToolManager` would take them. It drops the skill paths, because nothing reads them.
- **Undeclared fields**: `AgentConfig` (`config.py:11-14`) declares no `provider`, `model` or `schedule`, and `ProjectConfig` no `provider` or `model`, yet the daemon reads all of them, so `daemon.py:54` raises `AttributeError`. They are modelled as plain fields, with `""` meaning unset, as `or` treats it.
- **Empty reads**: a connection that sends nothing gets no reply at all (`daemon.py:201-204`). This is an exception to "exactly one terminal message per request".

## Model

| member | source | states |
|---|---|---|
| Agent.SkillPartsMembers | ezagent/agent.py:54-59 | a prompt part exists exactly for each listed skill whose `.md` file exists, built as "## Skill: <s>\n" + the file's stripped text |
| Agent.SkillPartsAppend | ezagent/agent.py:55-59 | skill parts appear in the configured skill order (the part list distributes over concatenation of the skill list) |
| Agent.PromptLeadsWithDescription | ezagent/agent.py:50-61 | with a non-empty description the system prompt starts with "You are: <description>" |
| Agent.EmptyPrompt | ezagent/agent.py:50-61 | no description and no existing skill file give the empty prompt |
| Agent.Initialize | ezagent/agent.py:47-67 | initialisation sets exactly that prompt, name, skills and delegation flag, fails exactly when connecting the router fails, and otherwise holds the connected router built from the tool list split against the agent names |
| Agent.UseBlocks | ezagent/agent.py:106-114 | one tool_use block per call, in provider order, carrying the call's id, name and input |
| Agent.UseIdsOfCalls | ezagent/agent.py:106-114 | the ids of the assistant's tool_use blocks are the call ids in order |
| Agent.CallIds | ezagent/agent.py:106-138 | the ids of the calls, one per call, in provider order |
| Agent.ResultIdsOfResults | ezagent/agent.py:118-142 | the tool_use_ids of the result blocks are the call ids in order |
| Agent.AnswersSnoc | ezagent/agent.py:135-141 | appending the result for the next unanswered call keeps the results paired one for one, in order, with a prefix of the calls |
| Agent.RoundIsProper | ezagent/agent.py:102-142 | a response with calls and its answers form a round: the assistant message has a text block first exactly when the text is non-empty, then one tool_use block per call with its id, name and input, in order; the user message holds one tool_result block per call, in order |
| Agent.AssistantLayout | ezagent/agent.py:102-115 | the assistant message has a text block exactly when the response has text, first, followed by one tool_use block per call with its id, name and input, in order |
| Agent.ProperRoundsAppend | ezagent/agent.py:115-142 | appending one assistant and one user message for a round keeps the conversation well formed |
| Agent.ChatTools | ezagent/agent.py:85-95 | `tools` is passed as None exactly when the schema list is empty |
| Agent.OfferedTools | ezagent/agent.py:85 | no tools are offered exactly when there is no router or it has no schemas |
| Agent.TruncateForDebug | ezagent/agent.py:129-132 | a result of at most 200 characters is kept whole; a longer one becomes its first 200 characters plus "..." |
| Agent.Run | ezagent/agent.py:69-100 | at depth >= 10 the run returns the recursion-limit text with no events, consuming no provider reply; a completed run consumes a prefix of each oracle tape, and without debug produces no events |
| Agent.RunRecords | ezagent/agent.py:81-142 | below the depth limit the history is the user message followed by one assistant/user pair per consumed reply that requested tools, in reply order, with one request per round plus one for the answer, each extending the previous by two messages with the same system prompt and tools; the answer is the text of the last consumed reply, which had no tool calls |
| Agent.Loop | ezagent/agent.py:88-96 | each iteration consumes provider replies and tool outputs only from the front of their tapes, and without debug adds no events to those it was given |
| Agent.Respond | ezagent/agent.py:98-142 | a response is handled by consuming oracle outputs only from the front, and without debug adds no events |
| Agent.LoopRecords | ezagent/agent.py:88-142 | a completed loop keeps the history it was given as a prefix of a proper history, sends one request per consumed reply over the history as it stood, ends on a reply without tool calls whose text is the result, and records every later message as the rounds of the consumed replies that requested tools, the first being the first reply |
| Agent.FirstRoundResults | ezagent/agent.py:115-142 | when the first reply requested tools, the user message right after its assistant message holds exactly the results executing its calls produced |
| Agent.ContinuedHistory | ezagent/agent.py:115-142 | after a round the assistant message of that response and the user message of exactly those results are appended, in that order, and the conversation stays proper |
| Agent.ContinueRecords | ezagent/agent.py:115-142 | after a round, the history holds that response's assistant message and then the user message of those results, the request for the next reply comes after them, and the rounds that follow are recorded after them |
| Agent.AfterCall | ezagent/agent.py:129-141 | each executed call appends exactly one result block, carrying that call's id and the tool's text, and the truncated result event only when debugging |
| Agent.ExecCalls | ezagent/agent.py:119-141 | tool calls run sequentially in provider order; the round ends with exactly one result block per call, paired with the calls in order, and keeps the result blocks it started with in front |
| Agent.ExecCallsResult | ezagent/agent.py:119-141 | result block i holds the text that executing call i produced, tagged with call i's id |
| Agent.ExecuteTool | ezagent/agent.py:144-177 | without a router the answer is the "Tool manager not initialized" error; it consumes oracles only as the branch taken demands, and adds no events without debug |
| Agent.Delegate | ezagent/daemon.py:152-159 | an unknown agent yields the JSON "Agent '<name>' not found" error without running anything; a delegation consumes oracles only from the front and adds no events without debug |
| Agent.DelegateRuns | ezagent/daemon.py:156-159 | a known agent is run with the given message, depth and debug flag, and its result is passed back unchanged |
| Agent.RunAnswersDirectly | ezagent/agent.py:81-100 | a first reply without tool calls ends the run after one request, with that reply's text and (under debug) the skills and calling events |
| Agent.UnknownToolAnsweredLocally | ezagent/tools/manager.py:123-124 | a name nobody routes is answered with `{"error": "Unknown tool: <name>"}` and touches no oracle |
| Agent.RoutedToolConsumesOneOutput | ezagent/tools/manager.py:126-139 | a routed call consumes exactly one MCP output and answers with its flattened text |
| Agent.DelegationRunsOneLevelDeeper | ezagent/agent.py:157-175 | delegation runs the target with depth + 1 and the call's `message` argument, returns its text, and merges its events only under debug |
| Agent.DelegationAtDepthLimit | ezagent/agent.py:75-79 | a delegation from depth 9 returns the recursion-limit text and consumes nothing |
| Agent.DelegationToUnknownAgent | ezagent/daemon.py:156-158 | delegating to an agent the registry lacks yields the not-found error and touches no oracle |
| Agent.DelegationNeedsObject | ezagent/agent.py:161 | delegation reads `message` with `arguments.get`, so arguments that are not an object raise the `AttributeError` |
| ToolRouter.PartitionMembers | ezagent/tools/manager.py:22-23 | the tool half holds exactly the names that are not agents, the agent half exactly those that are |
| ToolRouter.NotInAppend | ezagent/tools/manager.py:22 | the tool half keeps input order |
| ToolRouter.OnlyInAppend | ezagent/tools/manager.py:23 | the agent half keeps input order |
| ToolRouter.PartitionCovers | ezagent/tools/manager.py:22-23 | together the halves hold every configured name exactly as often as the input does |
| ToolRouter.NewRouter | ezagent/tools/manager.py:14-28 | the tool list is split, in order, into the names that are not agents and the names that are; the external paths are kept; client, schema and routing dicts start empty |
| ToolRouter.QualifiedNameSplits | ezagent/tools/manager.py:98 | when the endpoint key has no "__" and does not end in "_", splitting the qualified name at its first "__" recovers (endpoint, operation) |
| ToolRouter.TrailingUnderscoreBreaksSplit | ezagent/tools/manager.py:98 | an endpoint key ending in "_" already breaks that split ("a_" and "b" split back as "a" and "_b") |
| ToolRouter.QualifiedNamesCollide | ezagent/tools/manager.py:57-61 | two different routes can share one qualified name, so the later registration overwrites the earlier one |
| ToolRouter.ToSchema | ezagent/tools/manager.py:93-108 | schema name `<dir>__<op>`; description defaults to ""; a missing or empty input schema becomes `{"type": "object", "properties": {}}` |
| ToolRouter.AgentSchema | ezagent/tools/manager.py:76-90 | the delegation schema is named `agent_<name>` and its input schema is an object whose one required property, `message`, has type string |
| ToolRouter.AgentSchemaRoutesBack | ezagent/tools/manager.py:76-90 | the name a delegation schema advertises is routed back to that agent by `is_agent_tool` |
| ToolRouter.MissingEndpoint | ezagent/tools/manager.py:32-34 | connecting fails exactly when some endpoint directory has no `main.py`, and names the first such one |
| ToolRouter.RouteEntriesOf | ezagent/tools/manager.py:57-61 | one route per listed operation, from its qualified name to (endpoint, operation), in listing order |
| ToolRouter.RouteEntriesFromClients | ezagent/tools/manager.py:53-61 | every route names an endpoint that was connected |
| ToolRouter.SchemaEntriesOf | ezagent/tools/manager.py:57-60 | one schema per listed operation, keyed by its own name |
| ToolRouter.AgentSchemaEntries | ezagent/tools/manager.py:76-91 | one synthetic schema per agent tool name, keyed `agent_<name>`, in order |
| ToolRouter.Connect | ezagent/tools/manager.py:63-91 | connecting fails exactly when an endpoint is missing, with the "Tool main.py not found" message; on success the partition is unchanged and the dicts stay well formed |
| ToolRouter.ConnectAll | ezagent/tools/manager.py:67-73 | connecting every endpoint in order keeps the partition and the dict shape |
| ToolRouter.ConnectRoutesLastWins | ezagent/tools/manager.py:61 | a qualified name routes to the last (endpoint, operation) that produced it |
| ToolRouter.ConnectRoutesHaveClients | ezagent/tools/manager.py:53-61 | every route of a freshly connected router leads to a connected client |
| ToolRouter.ConnectRegistersAgentSchemas | ezagent/tools/manager.py:76-91 | after connecting, each `agent_<name>` maps to its synthetic schema, since those are registered last |
| ToolRouter.ConnectAllAgentSchemas | ezagent/tools/manager.py:67-91 | after every endpoint is connected, each agent tool is listed under `agent_<name>` with its delegation schema |
| ToolRouter.IsAgentTool | ezagent/tools/manager.py:114-119 | returns some `a` exactly when the name is "agent_" + a for a listed agent tool `a`, and None otherwise |
| ToolRouter.IsAgentToolExact | ezagent/tools/manager.py:114-119 | "agent_" + a is recognised as delegation to `a` itself |
| ToolRouter.CallTool | ezagent/tools/manager.py:121-127 | an unrouted name is answered with the unknown-tool error; a routed one is forwarded to its route's client |
| ToolRouter.ConnectedDispatchReachesClient | ezagent/tools/manager.py:126-127 | on a freshly connected router a routed name never lacks its client |
| ToolRouter.ItemTexts | ezagent/tools/manager.py:132-137 | one text per content item, in order: its `text`, else its `str()` |
| ToolRouter.Flatten | ezagent/tools/manager.py:131-139 | no content list or an empty one gives the result's `str()`; otherwise the item texts joined with "\n" (one item gives its text) |
| ToolRouter.FlattenRecoversItems | ezagent/tools/manager.py:138 | when no item text holds a newline, splitting the flattened text at "\n" gives back the item texts |
| ToolRouter.Disconnect | ezagent/tools/manager.py:141-148 | every client is closed in order, failures are swallowed, and the client dict ends empty with nothing else changed |
| ToolRouter.DisconnectIdempotent | ezagent/tools/manager.py:141-148 | disconnecting again closes nothing and changes nothing |
| Config.NonBlankItems | ezagent/config.py:22 | every kept piece is non-empty, has no surrounding whitespace and no comma |
| Config.SplitCsvItems | ezagent/config.py:16-23 | every item `split_csv` yields from a string is such a well-formed item |
| Config.SplitCsvJoin | ezagent/config.py:22 | joining well-formed items with "," and splitting back gives the same list |
| Config.NonBlankOfItems | ezagent/config.py:22 | the blank filter keeps a list of well-formed items unchanged |
| Config.MissingSkill | ezagent/config.py:40-45 | finds a skill without its `.md` file exactly when one exists |
| Config.UnresolvedTool | ezagent/config.py:48-56 | finds a tool that is neither an agent nor a directory with `main.py` exactly when one exists |
| Config.CheckAgent | ezagent/config.py:38-60 | an agent passes exactly when its skills exist, its tools resolve and it does not list itself |
| Config.CheckAgents | ezagent/config.py:38-60 | the per-agent pass succeeds exactly when every agent is valid |
| Config.ReferenceGraph | ezagent/config.py:63-73 | the reference graph has one node per agent |
| Config.Validate | ezagent/config.py:32-83 | validation succeeds exactly when every agent is valid and the agent-reference graph has no cycle; on success the configuration is returned unchanged |
| Config.SelfReferenceRejected | ezagent/config.py:59-60 | an agent listing itself is always rejected |
| Config.ValidateOrderIndependent | ezagent/config.py:75-81 | whether validation succeeds does not depend on the iteration order of the agent-name set |
| Config.SocketPath | ezagent/config.py:85-88 | the socket path starts with "/tmp/ezagent_" and the first 12 digest characters |
| Config.PidPath | ezagent/config.py:90-93 | the pid path has the same stem |
| Config.RuntimePathsDiffer | ezagent/config.py:85-93 | the two paths differ only in ".sock" versus ".pid" |
| Config.RuntimePathsIdentify | ezagent/config.py:85-93 | two projects get the same paths exactly when their digests agree on the first 12 characters |
| Config.FindProjectDir | ezagent/config.py:96-105 | the result is the nearest ancestor of the working directory (itself included) holding `agents.yml`, or None when no ancestor up to the root does |
| Config.AgentsSection | ezagent/config.py:121-122 | loading succeeds exactly when the document is a mapping with an "agents" key; an empty document or one without the key raises the "must contain an 'agents' key" error |
| Config.LoadConfig | ezagent/config.py:108-124 | no given directory and none found raise the "No agents.yml found" error; otherwise the agents section of that directory's document is read |
| AgentGraph.FindCycleRootDecides | ezagent/config.py:62-81 | the depth-first search reports a cycle exactly when the agent-reference graph has one, whatever order the roots are tried in |
| AgentGraph.FindCycleRootSound | ezagent/config.py:75-81 | a reported root lies on a search that found a cycle in the graph |
| AgentGraph.FindCycleRootComplete | ezagent/config.py:75-81 | when no root reports a cycle, the graph has none |
| AgentGraph.VisitSound | ezagent/config.py:63-71 | `_has_cycle` answering true implies a cycle through the stack |
| AgentGraph.VisitComplete | ezagent/config.py:63-73 | `_has_cycle` answering false leaves every visited node ranked after all its successors |
| AgentGraph.VisitToolsComplete | ezagent/config.py:66-71 | the scan over an agent's tools finishes every agent tool it reaches |
| AgentGraph.VisitToolsSound | ezagent/config.py:66-71 | a true answer from the scan over an agent's tools, from a path ending at that agent, means the graph has a cycle |
| AgentGraph.RankedAcyclic | ezagent/config.py:62-81 | a ranking that covers the graph rules out any cycle |
| AgentGraph.Visit | ezagent/config.py:63-65 | the search marks the node visited and only adds agents to the visited set |
| AgentGraph.FindCycleRoot | ezagent/config.py:75-81 | a reported root is one of the agents |
| Daemon.Or | ezagent/daemon.py:54-55 | `value or fallback` is one of the two and is empty only when both are |
| Daemon.CachedProvider | ezagent/daemon.py:57-60 | a cached key is reused as is; an uncached key is created once and added; creation errors surface only for an uncached key; other entries are unchanged |
| Daemon.StartOne | ezagent/daemon.py:39-73 | starting one agent rewrites its lists to local names, takes the provider cached under its key (a provider failure ends it), grows the cache by that key only, and hosts exactly the state `Agent.initialize` produced, with the prompt of its local skills |
| Daemon.StartAgents | ezagent/daemon.py:39-73 | agents are started in configuration order, each handed the provider cached under its key |
| Daemon.SharedKeySharesProvider | ezagent/daemon.py:57-60 | agents that resolve to the same (provider, model) are handed the same provider |
| Daemon.OneProviderPerKey | ezagent/daemon.py:57-60 | the cache holds each key once, and only keys some agent uses |
| Daemon.AgentJobs | ezagent/daemon.py:81-90 | one job per schedule entry, first due at its cron's next time after start-up; an invalid cron fails |
| Daemon.BuildSchedule | ezagent/daemon.py:77-90 | one job per (agent, schedule entry) in total, each first due at the cron's next time |
| Daemon.BuildScheduleAppend | ezagent/daemon.py:80-81 | the jobs are laid out agent by agent in configuration order |
| Daemon.BuildScheduleOne | ezagent/daemon.py:81-90 | an agent's jobs follow its schedule entries in order |
| Daemon.SortByTime | ezagent/daemon.py:105 | the jobs are reordered by next run time, a permutation |
| Daemon.SortIsStable | ezagent/daemon.py:105 | `list.sort` is stable: for every time, the jobs due then keep their relative order |
| Daemon.SortKeepsSorted | ezagent/daemon.py:105 | sorting a list already in time order leaves it unchanged |
| Daemon.SortedHeadIsEarliest | ezagent/daemon.py:105-106 | after sorting, the first job's time is the earliest of all |
| Daemon.Earliest | ezagent/daemon.py:106 | the earliest next run time is no later than any job's and belongs to some job |
| Daemon.InsertByTime | ezagent/daemon.py:105 | inserting a job into a time-ordered list keeps it ordered, adds exactly that job, and places it before every job due at the same time |
| Daemon.Due | ezagent/daemon.py:113-114 | exactly the jobs whose next run is no later than now are due |
| Daemon.DueSubMultiset | ezagent/daemon.py:113-114 | the due jobs are drawn from the job list, each no more often than it occurs |
| Daemon.Advance | ezagent/daemon.py:113-127 | each due job advances by one cron step from its own time, and jobs not due keep theirs |
| Daemon.SchedulerStep | ezagent/daemon.py:100-127 | no jobs means a 60-second sleep; otherwise it sleeps until the earliest time (not at all if that has passed), fires exactly the due jobs once each in time order, and leaves the sorted list with each due job advanced by one cron step from its own time |
| Daemon.WakeFacts | ezagent/daemon.py:105-114 | the head of the sorted list carries the earliest time, and every job due at the wake-up time is among those fired |
| Daemon.FiredJobsMoveForward | ezagent/daemon.py:112-127 | after a wake no fired job is still due at its old time: each fired job is advanced by its cron |
| Daemon.ScheduledRun | ezagent/daemon.py:131-150 | a fired job runs its agent at depth 0 with debug off; a missing agent or a raised error is only logged |
| Daemon.Registry | ezagent/daemon.py:73 | the registry holds exactly the started agents, and each name maps to the state of the last agent started under it |
| Daemon.Rewritten | ezagent/daemon.py:49-51 | after start-up every agent's lists hold only local names |
| Daemon.Initialize | ezagent/daemon.py:33-75 | start-up hosts every configured agent in order, keeps the cache sound and builds one job per schedule entry |
| Protocol.LineFields | ezagent/daemon.py:255-260 | a reply line carries its kind under "type" and its text under "text" |
| Protocol.AgentInfos | ezagent/daemon.py:210-230 | the status reply holds one entry per hosted agent, in start-up order |
| Protocol.ScheduleInfo | ezagent/daemon.py:215-222 | an agent's schedule info holds an entry for a job exactly when the job belongs to that agent, built from its cron, message and ISO next run |
| Protocol.ScheduleInfoAppend | ezagent/daemon.py:215-222 | listing a split schedule lists each part in turn, so the entries follow the scheduler's current order |
| Protocol.ScheduleInfoOne | ezagent/daemon.py:216-222 | a single job is listed exactly when it belongs to the agent |
| Protocol.DebugLines | ezagent/daemon.py:253-256 | one debug line per event, in order |
| Protocol.RunLines | ezagent/daemon.py:250-262 | a finished run answers with its debug lines (only when debug is set), then one text line; a raised error answers with one "Agent error: ..." line |
| Protocol.FramedRun | ezagent/daemon.py:250-262 | every reply line but the last is a debug line, and the last is a text or error line |
| Protocol.StatusKind | ezagent/daemon.py:231-232 | a status request gets exactly one line, of type "status" |
| Protocol.Respond | ezagent/daemon.py:238-262 | an unknown agent gets exactly one error line and no debug lines; without debug every reply is one line |
| Protocol.HandleClient | ezagent/daemon.py:196-276 | empty input writes nothing; a status request writes one status line; a run request is answered as `Respond` says; every reply is framed |
| Protocol.HandleClientRuns | ezagent/daemon.py:250-262 | a successful run answers with exactly its debug events, when asked for, then its text |
| Protocol.WireIsJoin | ezagent/daemon.py:232-262 | the bytes written are the lines' JSON texts, each followed by a newline |
| Protocol.WireLines | ezagent/daemon.py:513 | the client's `strip().split("\n")` recovers exactly the encoded lines the daemon wrote |
| Protocol.ClientReadsReply | ezagent/daemon.py:513-526 | the client's reading of the wire is its reading of the lines themselves |
| Protocol.ShowEncodings | ezagent/daemon.py:513-524 | when decoding inverts encoding, the client shows the encoded lines as it would show the objects themselves |
| Protocol.ShowDebugThenText | ezagent/daemon.py:519-524 | the client prints each debug event to stderr prefixed "[debug] " and then the text to stdout |
| Protocol.ClientSeesRun | ezagent/daemon.py:513-526 | end to end, a run's reply is shown as its debug echoes followed by its text |
| Protocol.ClientSeesError | ezagent/daemon.py:244-245 | an error line makes the client raise a ClickException with its text |
| Protocol.ClientSeesNothing | ezagent/daemon.py:202-204 | an empty reply prints nothing |
| Protocol.NullTextEchoes | ezagent/daemon.py:518-524 | a null "text" prints an empty line on stdout for an ordinary line but "[debug] None" on stderr for a debug line |
| Protocol.DebugEchoes | ezagent/daemon.py:521-522 | each debug event is echoed to stderr as "[debug] <event>" |
| External.GitUrl | ezagent/external.py:8-13 | a git reference is "git+" followed by its URL |
| External.TrimTrailingSlashes | ezagent/external.py:20 | `rstrip("/")` removes exactly the trailing slashes |
| External.LastSegment | ezagent/external.py:20 | `rsplit("/", 1)[-1]` is the part after the last slash, or the whole string |
| External.TrimSlashesOf | ezagent/external.py:20 | trailing slashes are removed and nothing else |
| External.LastSegmentAfterSlash | ezagent/external.py:20 | the segment after a final slash is recovered |
| External.ShortName | ezagent/external.py:16-23 | a short name never contains a slash |
| External.ShortNameOfRepoPath | ezagent/external.py:16-23 | `/…/<name>.git/` and `/…/<name>` both give `<name>` |
| External.EnsureGitignore | ezagent/external.py:43-57 | a missing file becomes ".ezagent/\n"; content already holding the marker is unchanged; otherwise a newline is added if needed and ".ezagent/\n" appended |
| External.EnsureGitignoreIdempotent | ezagent/external.py:43-57 | applying the edit twice is the same as once |
| External.LocalNames | ezagent/external.py:76-96 | the local lists hold exactly the names that are not git references |
| External.LocalNamesAppend | ezagent/external.py:84-96 | local names keep their original order |
| External.GitShortNames | ezagent/external.py:76-96 | every git reference contributes its short name, and the counts add up with the local names |
| External.DestEntries | ezagent/external.py:80-93 | each git reference of a kind maps its short name to `.ezagent/external/<kind>/<short>` |
| External.ExternalPaths | ezagent/external.py:70-93 | the path dict has each short name once |
| External.LastBindingOfDests | ezagent/external.py:82-93 | a short name ends bound to its destination, the later duplicate overwriting the earlier |
| External.AnyGitRef | ezagent/external.py:74-99 | `.gitignore` is touched exactly when some git reference was seen |
| External.ResolveExternals | ezagent/external.py:60-101 | local lists are the non-git names; the path dicts map each git reference's short name to its checkout directory under its kind; `.gitignore` is touched exactly when some reference, tool or skill, is a git reference |
| External.ExternalPathsLookup | ezagent/external.py:80-93 | a short name is in the path dict exactly when some git reference has it, and then maps to its destination |
| Cli.GetCommand | ezagent/cli.py:18-24 | a known command is returned as is, any other name gives the "run" command |
| Cli.ResolveCommand | ezagent/cli.py:26-33 | with no resolved command and non-empty arguments the result is ("run", run, args) with args unchanged; otherwise the base resolution stands |
| Cli.FirstPositional | ezagent/cli.py:38-39 | finds the first argument not starting with "-", if any |
| Cli.ParseArgs | ezagent/cli.py:35-43 | "run" is inserted right before the first positional argument exactly when it is not a known command; arguments before it keep their positions; all-option lists are unchanged |
| Cli.FirstPositionalUnique | ezagent/cli.py:38-39 | the first argument not starting with "-" after only options is the one found |
| Cli.ParseArgsInserts | ezagent/cli.py:38-42 | the list changes exactly when a first positional argument exists and is not a command, and then by one "run" at that position |
| Cli.ParseArgsIdempotent | ezagent/cli.py:38-42 | rewriting twice inserts at most one "run" |
| Cli.RunCommandRequest | ezagent/cli.py:161-171 | an empty message tuple is an error; otherwise the words are joined with single spaces |
| Cli.RunMessageWords | ezagent/cli.py:170 | words without spaces can be split back from the joined message |
| Cli.ProviderModel | ezagent/cli.py:153-155 | "provider/model" when there is a model, else the provider alone |
| Cli.ProviderModelSplits | ezagent/cli.py:155 | a slash-free provider and model are recovered by splitting at "/" |
| Cli.ListCell | ezagent/cli.py:156-157 | an empty joined list shows as an em dash; a non-empty one starts with its first item |
| Cli.StatusRowColumns | ezagent/cli.py:158 | with a name of at most 16 characters the name starts at column 2 and provider/model at column 19, padded to its width |
| Providers.CreateProvider | ezagent/llm/__init__.py:6-24 | "anthropic" and "google" build their adapter, failing exactly when the API key variable is unset or empty; an empty model selects the adapter's default; any other name is the "Unknown LLM provider" error |
| AnthropicProvider.BuildRequest | ezagent/llm/anthropic.py:28-36 | model, 4096 max tokens and the messages always; `system` exactly when non-empty; `tools` exactly when a non-empty list was given |
| AnthropicProvider.CallsOf | ezagent/llm/anthropic.py:43-49 | the tool calls are exactly the tool_use blocks |
| AnthropicProvider.StopReasonOf | ezagent/llm/anthropic.py:54 | a missing or empty stop reason becomes "end_turn" |
| AnthropicProvider.ParseResponse | ezagent/llm/anthropic.py:40-55 | text blocks joined with "\n", tool_use blocks as calls, other blocks ignored |
| AnthropicProvider.CallsOfAppend | ezagent/llm/anthropic.py:43-49 | calls and texts keep block order |
| AnthropicProvider.ParseResponseAppend | ezagent/llm/anthropic.py:40-55 | parsing two runs of blocks joins their texts with "\n" and concatenates their calls |
| GoogleProvider.GeminiRole | ezagent/llm/google.py:74 | "assistant" becomes "model", every other role "user" |
| GoogleProvider.ConvertBlock | ezagent/llm/google.py:86-103 | text, tool_use and tool_result blocks each give one part; other block types give none |
| GoogleProvider.ConvertParts | ezagent/llm/google.py:85-103 | the parts are empty exactly when no block converts |
| GoogleProvider.ConvertMessage | ezagent/llm/google.py:71-107 | a string content gives one text part; a block list none of whose blocks converts is dropped |
| GoogleProvider.ConvertMessages | ezagent/llm/google.py:67-108 | at most one entry per message, each with non-empty parts and role "user" or "model" |
| GoogleProvider.ConvertMessagesAppend | ezagent/llm/google.py:71-107 | translation keeps message order |
| GoogleProvider.ConvertMessagesCount | ezagent/llm/google.py:71-107 | exactly the non-dropped messages appear |
| GoogleProvider.WithoutSchemaKey | ezagent/llm/google.py:56 | no "$schema" member is left |
| GoogleProvider.WithoutSchemaKeyLookup | ezagent/llm/google.py:56 | every other member keeps its value |
| GoogleProvider.WithoutSchemaKeyAppend | ezagent/llm/google.py:56 | the filter keeps member order |
| GoogleProvider.CleanParameters | ezagent/llm/google.py:53-56 | a non-empty schema loses its top-level "$schema" and keeps everything else; any other value passes unchanged |
| GoogleProvider.ConvertTools | ezagent/llm/google.py:48-64 | a single tool holding one declaration per schema, in order |
| GoogleProvider.BuildConfig | ezagent/llm/google.py:31-42 | the config is absent when empty; it has `system_instruction` exactly when the system prompt is non-empty and `tools` exactly when a non-empty tool list was given |
| GoogleProvider.CallsOfParts | ezagent/llm/google.py:119-130 | call k is the k-th text-less function-call part, with id "toolu_" + the first 24 characters of uuid k, its name, and its arguments or `{}` |
| GoogleProvider.ParseResponse | ezagent/llm/google.py:111-140 | no candidates give an empty end_turn response; otherwise the text is the first candidate's text parts joined with "\n" and the calls are its function-call parts; the stop reason is "tool_use" exactly when there are calls |
| GoogleProvider.CallParts | ezagent/llm/google.py:119-123 | a function call is read exactly from the parts that have no text, in part order |
| GoogleProvider.TextPartsEndTurn | ezagent/llm/google.py:119-140 | when every part has text there are no calls and the turn ends |
| GoogleProvider.CallIdsDistinct | ezagent/llm/google.py:126 | distinct uuid prefixes give distinct call ids |
| MemoryTool.FullCollectionName | ezagent/tools/builtins/memory/main.py:27-33 | the collection name gets the "ezagent_" prefix |
| MemoryTool.FullCollectionNameInjective | ezagent/tools/builtins/memory/main.py:31-33 | prefixing is injective |
| MemoryTool.UserCollection | ezagent/tools/builtins/memory/main.py:127 | `collection or "memory"` |
| MemoryTool.EnsureCollection | ezagent/tools/builtins/memory/main.py:52-90 | a missing collection is created empty; existing ones are untouched |
| MemoryTool.MemoryStore | ezagent/tools/builtins/memory/main.py:112-150 | the memory is appended to the prefixed collection, no other collection changes, and the reply names the unprefixed collection |
| MemoryTool.StoredReplyCollection | ezagent/tools/builtins/memory/main.py:148-150 | the reply's "collection" is the name the user gave |
| MemoryTool.MemoryDelete | ezagent/tools/builtins/memory/main.py:212-227 | the memory with that id is removed from the prefixed collection only |
| MemoryTool.MemoryDeleteIdempotent | ezagent/tools/builtins/memory/main.py:223-226 | deleting twice is the same as once |
| MemoryTool.WithoutId | ezagent/tools/builtins/memory/main.py:223-226 | exactly the memories with other ids remain |
| MemoryTool.WithoutIdAbsent | ezagent/tools/builtins/memory/main.py:223-226 | deleting an id no memory has changes nothing |
| MemoryTool.Tags | ezagent/tools/builtins/memory/main.py:179-183 | the tags are the comma pieces, stripped, without blank ones |
| MemoryTool.SearchClauses | ezagent/tools/builtins/memory/main.py:176-183 | the agent clause comes first when an agent is given, then one `like` clause per tag |
| MemoryTool.SearchFilter | ezagent/tools/builtins/memory/main.py:185-192 | no filter exactly when there is no agent and no tag |
| MemoryTool.SearchFilterClauses | ezagent/tools/builtins/memory/main.py:176-185 | the filter starts with the agent clause and contains every tag clause |
| MemoryTool.TagClauseInFilter | ezagent/tools/builtins/memory/main.py:179-185 | every tag's `like` clause appears in the filter, which is then present |
| MemoryTool.TagsOfJoined | ezagent/tools/builtins/memory/main.py:179-183 | well-formed tags joined with "," are read back unchanged |
| MemoryTool.ListFilter | ezagent/tools/builtins/memory/main.py:249-253 | the list filter is the search filter without tags |
| MemoryTool.ListItem | ezagent/tools/builtins/memory/main.py:261-268 | each listed row becomes an item with its five fields |
| MemoryTool.SearchItem | ezagent/tools/builtins/memory/main.py:196-207 | a hit becomes an item with six fields, and a non-mapping entity is the error `.get` raises |
| MemoryTool.ResultsReplyCount | ezagent/tools/builtins/memory/main.py:209 | the reply's "count" is the number of its "results" |
| MemoryTool.MemoryList | ezagent/tools/builtins/memory/main.py:245-271 | the collection is created when missing and nothing else changes; one item per row, in order, with a matching count |
| MemoryTool.SearchItems | ezagent/tools/builtins/memory/main.py:195-207 | one item per hit, in order, or the error of the first bad hit |
| MemoryTool.MemorySearch | ezagent/tools/builtins/memory/main.py:170-209 | the collection is created when missing, even if a hit then raises; the reply exists exactly when every hit can be read, and lists their items with a matching count |
| MemoryTool.UnprefixedMembers | ezagent/tools/builtins/memory/main.py:280-284 | a name is kept exactly when its prefixed form is listed |
| MemoryTool.CollectionNames | ezagent/tools/builtins/memory/main.py:274-285 | the names are sorted, a permutation of the unprefixed listing, and hold exactly the names whose prefixed form is listed |
| MemoryTool.StoredCollectionListed | ezagent/tools/builtins/memory/main.py:280-285 | after storing, the collection shows up in the collections list |
| WebSearchTool.UnknownProviderNamesBrave | ezagent/tools/builtins/web_search/main.py:82-97 | the unknown-provider error lists the only registered provider, "brave" |
| WebSearchTool.GetProvider | ezagent/tools/builtins/web_search/main.py:87-99 | a cached provider is reused; otherwise the lower-cased name (default "brave") must be registered and the API key set |
| WebSearchTool.SliceTo | ezagent/tools/builtins/web_search/main.py:75 | Python's `xs[:n]`, including negative `n` |
| WebSearchTool.Iterate | ezagent/tools/builtins/web_search/main.py:67 | iterating null, a boolean or a number raises; a list yields its items |
| WebSearchTool.ResultItems | ezagent/tools/builtins/web_search/main.py:67-74 | every item must be a mapping; each becomes title, url and snippet (from description) |
| WebSearchTool.ParseResults | ezagent/tools/builtins/web_search/main.py:64-75 | at most `count` results for a non-negative count; no "web" key gives no results |
| WebSearchTool.ParseWellFormed | ezagent/tools/builtins/web_search/main.py:64-75 | a well-formed reply with a non-negative count gives exactly the first min(count, n) items, each converted |
| WebSearchTool.WebSearch | ezagent/tools/builtins/web_search/main.py:124-137 | a provider error becomes an error object; otherwise the provider is cached and the results are sent with their count |
| WebSearchTool.WebSearchCount | ezagent/tools/builtins/web_search/main.py:135 | the reply's count never exceeds a non-negative requested count |
| WebSearchTool.WebSearchRead | ezagent/tools/builtins/web_search/main.py:140-161 | the page is fetched with the browser user agent and answered as `{url, content}` with stripped, truncated text, or `{error, url}` |
| HtmlText.StripHtml | ezagent/tools/builtins/web_search/main.py:106-116 | the result has no surrounding whitespace, only single spaces as whitespace, and no tag |
| HtmlText.StripHtmlIdempotent | ezagent/tools/builtins/web_search/main.py:112-116 | stripping stripped text changes nothing |
| HtmlText.StripHtmlShape | ezagent/tools/builtins/web_search/main.py:112-116 | the substitutions and the strip leave text with no surrounding whitespace, single spaces only and no tag |
| HtmlText.StripHtmlOfText | ezagent/tools/builtins/web_search/main.py:112-116 | text already in that shape is left unchanged |
| HtmlText.StripTagsNoTag | ezagent/tools/builtins/web_search/main.py:106-114 | the tag substitution leaves no match of `<[^>]+>` |
| HtmlText.StripTagsOfNoTag | ezagent/tools/builtins/web_search/main.py:106-114 | text without tags passes through the substitution unchanged |
| HtmlText.CollapseSingleSpaced | ezagent/tools/builtins/web_search/main.py:107-115 | after collapsing, every whitespace character is a single space between non-spaces |
| HtmlText.CollapseKeepsNoTag | ezagent/tools/builtins/web_search/main.py:114-115 | collapsing whitespace creates no tag |
| HtmlText.CollapseOfSingleSpaced | ezagent/tools/builtins/web_search/main.py:107-115 | single-spaced text passes through unchanged |
| HtmlText.TruncateBounds | ezagent/tools/builtins/web_search/main.py:157-158 | text within the limit is kept; longer text becomes its first `limit` characters plus the truncation note |
| HtmlText.Truncate | ezagent/tools/builtins/web_search/main.py:157-158 | text within the limit is kept; longer text keeps exactly its first `limit` characters followed by "\n\n[Content truncated]" |
| HtmlText.ReadReply | ezagent/tools/builtins/web_search/main.py:150-161 | a fetched page is answered with its url and stripped, truncated content; a failure with its error and url |
| HttpTool.AllowedListSorted | ezagent/tools/builtins/http/main.py:64 | the allowed-method list in the error is the six methods, sorted and joined with ", " |
| HttpTool.RequestBody | ezagent/tools/builtins/http/main.py:69-78 | no or empty body sends nothing; a body that decodes as JSON is sent as JSON; anything else is sent raw |
| HttpTool.Prepare | ezagent/tools/builtins/http/main.py:60-78 | an upper-cased method outside the allow-list is rejected; otherwise the method is upper-cased and headers and params default to `{}` and None |
| HttpTool.ResponseBody | ezagent/tools/builtins/http/main.py:90-103 | a JSON content type with a decodable body gives the decoded value; a body that is not JSON-typed, or does not decode, gives the text; a string either way is capped at 50000 characters plus the note |
| HttpTool.ShortBodyReportedWhole | ezagent/tools/builtins/http/main.py:90-103 | a body within the limit is reported whole: the decoded value for a decodable JSON response, the text otherwise |
| HttpTool.HeaderFields | ezagent/tools/builtins/http/main.py:108 | the response headers are copied in order |
| HttpTool.HttpRequest | ezagent/tools/builtins/http/main.py:43-113 | a rejected request never sends and answers with its error; otherwise the reply carries the status code, headers and body |
| HttpTool.UnsupportedNeverSends | ezagent/tools/builtins/http/main.py:61-65 | an unsupported method gets "Unsupported method '<m>'. Allowed: DELETE, GET, HEAD, PATCH, POST, PUT" and no request is made |
| HttpTool.MethodCaseInsensitive | ezagent/tools/builtins/http/main.py:61-81 | two methods equal after upper-casing make the same request and get the same reply |
| HttpTool.HttpRead | ezagent/tools/builtins/http/main.py:116-139 | without headers the browser user agent is sent; decodable headers are sent as decoded; undecodable headers are an error; the page is answered like the web reader's |
| HttpTool.EmptyHeadersAreAbsent | ezagent/tools/builtins/http/main.py:128-131 | an empty header string is falsy and reads the page with the browser user agent, as no header string does |
| Json.Lookup | ezagent/daemon.py:238-240 | a key is found exactly when some member has it, and the value found is that of the last member with the key, as a Python dict keeps |
| Json.EncodeErrorObject | ezagent/agent.py:154-160 | `json.dumps({"error": msg})` for a message needing no escapes is `{"error": "<msg>"}` |
| Json.EncodePrintable | ezagent/daemon.py:232-262 | every `json.dumps` output is printable ASCII and holds no newline, so each reply fits on one line |
| OrderedMap.Put | ezagent/tools/manager.py:60-61 | `d[k] = v` binds `k` to `v`, leaves other keys alone, keeps an existing key's position and appends a new key |
| OrderedMap.PutFacts | ezagent/tools/manager.py:60-61 | an assignment keeps keys unique, binds the key, leaves other lookups alone and appends a key only if it was new |
| OrderedMap.Find | ezagent/tools/manager.py:123-126 | lookup succeeds exactly for a present key and returns that key's value |
| OrderedMap.PutAll | ezagent/external.py:82-93 | repeated assignment keeps every key once |
| OrderedMap.PutAllFind | ezagent/external.py:82-93 | after a run of assignments each key holds the value it was last assigned |
| OrderedMap.PutAllHasKey | ezagent/tools/manager.py:60-91 | a key is present after the assignments exactly when it was present before or was assigned |
| Strings.Strip | ezagent/config.py:22 | `str.strip()` removes exactly the leading and trailing whitespace |
| Strings.StripIdempotent | ezagent/config.py:22 | stripping twice is stripping once |
| Strings.StripOfStripped | ezagent/config.py:22 | text without surrounding whitespace is left alone |
| Strings.JoinSplit | ezagent/daemon.py:513 | joining the pieces of a split gives back the string |
| Strings.SplitJoin | ezagent/daemon.py:513 | splitting a join of separator-free parts recovers the parts |
| Strings.SplitPiecesLackSeparator | ezagent/config.py:22 | no piece of a split holds the separator |
| Strings.SortStrings | ezagent/tools/builtins/memory/main.py:285 | `sorted` of strings is sorted and a permutation |
| Strings.PadRight | ezagent/cli.py:158 | `f"{s:<w}"` pads with spaces to width `w` and never truncates |
| Strings.AsciiUpper | ezagent/tools/builtins/http/main.py:61 | letters a-z are upper-cased, everything else kept |
| Strings.AsciiLower | ezagent/tools/builtins/web_search/main.py:91 | letters A-Z are lower-cased, everything else kept |
| Strings.Take | ezagent/llm/google.py:126 | `s[:n]` is a prefix of length min(n, len(s)) |

## Left out

- I/O and concurrency: asyncio tasks, sockets, sleeping, signals, forking, the PID file and logging output are not modelled. The scheduler's sleep is returned as a delay, and a log record as a value.
- Subprocesses and the network: the MCP stdio transports (`uv` versus `python`), the provider SDK calls and `requests` are oracles.
- External.ResolveExternals: every `git clone`/`pull` is taken to succeed. A failing one (`external.py:26-40`, `check=True`) raises `CalledProcessError` and aborts start-up, which the model does not represent.
- The memory tool's Milvus client, embeddings, the similarity search engine and its limits are not modelled. Search scores arrive as given values, and listing returns the rows it is handed.
- Floating point: scores are given already rounded; `json.dumps` of floats is not modelled.
- `stop_daemon`, `start_daemon`, `get_status` and the CLI's scaffolding commands (`init`, `create tool`, `create skill`) are not modelled: they are process and file management. Of the `status` output only the per-agent row is modelled.
- The filesystem tool, `scaffold.py` and `base.py`'s abstract provider class are not part of this model. `llm_base.dfy` holds only the shapes.
- Agent.DelegationMessage: a non-string `message` argument is passed on as its JSON text. Python passes the decoded object itself to `run`, whose first user message then has non-string content; the model's messages are strings.
- Protocol.RequestMessage: likewise, a non-string `message` in a request reaches the agent as its JSON text, where Python hands over the object itself.
- Protocol.PyStr: Python's `str()` of a list or dict is rendered as JSON text, not as Python's repr.
- Daemon.AgentJobs: croniter's error for an invalid expression is modelled as a failure carrying the expression, not croniter's own message.
- Daemon.StartOne: follows the evident intent, not the code as written: `daemon.py:54` reads `agent_config.provider`, which `AgentConfig` does not declare, and `daemon.py:62-71` passes keyword arguments `Agent.__init__` rejects, so as written start-up raises on the first agent.
- Agent.Initialize: receives the external tool paths and gives them to the router; `agent.py:64-66` as written passes none to `ToolManager`.
- Daemon.SchedulerStep: times are whole seconds. `total_seconds()` (`daemon.py:108`) gives a fractional delay, which the model does not represent.
- Strings.AsciiUpper: `str.upper()`/`str.lower()` are modelled on ASCII letters only, so Unicode case mappings that land in the allow-list (for example "ſ".upper() == "S") are not modelled.
- HttpTool.HeaderValue: `requests`' case-insensitive header dict is modelled with ASCII case folding.
- WebSearchTool.SliceTo: a negative `count` makes `results[:count]` drop items from the end, so the reply can hold more than `count` results. This is modelled, not excluded.
- WebSearchTool.GetProvider: the provider instance is a module-level cache; the model passes it in and returns it.
- Config.FindProjectDir: paths are modelled as lists of components and `resolve()` as given; the MD5 digest is a parameter.
- AgentGraph.FindCycleRoot: Python's set iteration order is a parameter, so the cycle message may name any root of a cycle; only the success/failure verdict is proved order-independent.
