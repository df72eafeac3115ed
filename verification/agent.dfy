/**
 * The agent (ezagent/agent.py): system-prompt assembly, the tool-use loop
 * and tool execution, including agent-as-tool delegation.
 *
 * The LLM provider and the MCP servers are oracles. Their answers form two
 * tapes consumed in call order across the whole run, nested delegations
 * included: `replies` for `provider.chat`, `outputs` for MCP `call_tool`.
 * A raised exception is `Raised`; a tape that runs dry models an oracle that
 * never answers (`Stalled`). The loop terminates because every round
 * consumes one provider reply.
 *
 * Delegation calls back into the daemon's agent registry, which is passed
 * in as `reg` (`_delegate_to_agent`, ezagent/daemon.py:152-159).
 */
module Agent {
  import opened Wrappers
  import opened Json
  import opened Strings
  import opened Llm
  import opened OrderedMap
  import opened ToolRouter

  const MaxRecursionDepth := 10
  const MaxDebugResultLength := 200
  const DepthExceeded := "[Error: Maximum agent recursion depth (10) reached]"

  datatype AgentResult = AgentResult(text: string, debugEvents: seq<string>)

  /** An initialized agent; `canDelegate` is whether an agent runner was supplied. */
  datatype AgentState = AgentState(
    name: string,
    skills: seq<string>,
    systemPrompt: string,
    manager: Option<Router>,
    canDelegate: bool)

  // ----- system prompt -----

  /** One part per skill whose `<skill>.md` exists (`files` maps a skill to its file's text). */
  function SkillParts(skills: seq<string>, files: map<string, string>): seq<string> {
    if |skills| == 0 then []
    else
      (if skills[0] in files then [SkillPart(skills[0], files[skills[0]])] else [])
        + SkillParts(skills[1..], files)
  }

  function PromptParts(description: string, skills: seq<string>, files: map<string, string>): seq<string> {
    (if description != "" then ["You are: " + description] else []) + SkillParts(skills, files)
  }

  function SystemPrompt(description: string, skills: seq<string>, files: map<string, string>): string {
    Join(PromptParts(description, skills, files), "\n\n")
  }

  /** Skills contribute parts in their listed order: the part list distributes over concatenation. */
  lemma {:induction false} SkillPartsAppend(a: seq<string>, b: seq<string>, files: map<string, string>)
    ensures SkillParts(a + b, files) == SkillParts(a, files) + SkillParts(b, files)
    decreases |a|
  {
    if |a| == 0 {
      assert a + b == b;
    } else {
      assert (a + b)[0] == a[0];
      assert (a + b)[1..] == a[1..] + b;
      SkillPartsAppend(a[1..], b, files);
    }
  }

  function SkillPart(skill: string, content: string): string {
    "## Skill: " + skill + "\n" + Strip(content)
  }

  /** Exactly the skills with a file contribute a part, built from that file's stripped text. */
  lemma {:induction false} SkillPartsMembers(skills: seq<string>, files: map<string, string>, p: string)
    ensures p in SkillParts(skills, files) <==> exists s :: s in skills && s in files && p == SkillPart(s, files[s])
    decreases |skills|
  {
    if |skills| > 0 {
      SkillPartsMembers(skills[1..], files, p);
      assert forall s :: s in skills <==> s == skills[0] || s in skills[1..];
    }
  }

  /** The prompt leads with the description when there is one. */
  lemma PromptLeadsWithDescription(description: string, skills: seq<string>, files: map<string, string>)
    requires description != ""
    ensures |SystemPrompt(description, skills, files)| >= |"You are: " + description|
    ensures SystemPrompt(description, skills, files)[..|"You are: " + description|] == "You are: " + description
  {
    var parts := PromptParts(description, skills, files);
    var head := "You are: " + description;
    if |parts| > 1 {
      assert parts[0] == head;
      assert SystemPrompt(description, skills, files) == head + "\n\n" + Join(parts[1..], "\n\n");
    }
  }

  /** No description and no skill file: the prompt is empty. */
  lemma EmptyPrompt(skills: seq<string>, files: map<string, string>)
    requires forall k :: 0 <= k < |skills| ==> skills[k] !in files
    ensures SystemPrompt("", skills, files) == ""
  {
    var parts := SkillParts(skills, files);
    if parts != [] {
      SkillPartsMembers(skills, files, parts[0]);
    }
  }

  /**
   * `Agent.initialize`: builds the prompt and connects a router. The
   * router gets the external tool directories the daemon resolved.
   */
  function Initialize(
    name: string, description: string, skills: seq<string>, tools: seq<string>,
    agentNames: seq<string>, externalToolPaths: seq<Entry<string, string>>,
    projectDir: string, skillFiles: map<string, string>,
    listing: map<string, seq<McpTool>>, canDelegate: bool): (r: Result<AgentState, string>)
    requires UniqueKeys(externalToolPaths)
    ensures r.Success? ==> r.value.systemPrompt == SystemPrompt(description, skills, skillFiles)
    ensures r.Success? ==> r.value.manager.Some? && Valid(r.value.manager.value)
    ensures r.Failure? <==> Connect(NewRouter(tools, agentNames, externalToolPaths), projectDir, listing).Failure?
    ensures r.Success? ==> r.value.manager == Some(Connect(NewRouter(tools, agentNames, externalToolPaths), projectDir, listing).value)
    ensures r.Success? ==> r.value.name == name && r.value.skills == skills && r.value.canDelegate == canDelegate
  {
    var router := NewRouter(tools, agentNames, externalToolPaths);
    match Connect(router, projectDir, listing)
    case Failure(e) => Failure(e)
    case Success(connected) =>
      Success(AgentState(name, skills, SystemPrompt(description, skills, skillFiles), Some(connected), canDelegate))
  }

  // ----- message layout -----

  function UserMessage(text: string): Message {
    Message("user", Plain(text))
  }

  function UseBlocks(calls: seq<ToolCall>): (r: seq<Block>)
    ensures |r| == |calls|
    ensures forall k :: 0 <= k < |calls| ==> r[k] == ToolUseBlock(calls[k].id, calls[k].name, calls[k].input)
  {
    seq(|calls|, k requires 0 <= k < |calls| => ToolUseBlock(calls[k].id, calls[k].name, calls[k].input))
  }

  /** The assistant turn: a text block only when there is text, then one tool_use block per call. */
  function AssistantMessage(response: LlmResponse): Message {
    Message("assistant", Blocks(
      (if response.text != "" then [TextBlock(response.text)] else []) + UseBlocks(response.toolCalls)))
  }

  function ResultBlock(call: ToolCall, text: string): Block {
    ToolResultBlock(Some(call.id), None, text)
  }

  function CallIds(calls: seq<ToolCall>): (r: seq<string>)
    ensures |r| == |calls|
    ensures forall k :: 0 <= k < |calls| ==> r[k] == calls[k].id
  {
    seq(|calls|, k requires 0 <= k < |calls| => calls[k].id)
  }

  /** Ids of the tool_use blocks, in order. */
  function UseIds(blocks: seq<Block>): seq<string> {
    if |blocks| == 0 then []
    else (if blocks[0].ToolUseBlock? then [blocks[0].id] else []) + UseIds(blocks[1..])
  }

  /** `tool_use_id`s of the tool_result blocks, in order. */
  function ResultIds(blocks: seq<Block>): seq<string> {
    if |blocks| == 0 then []
    else
      var head := if blocks[0].ToolResultBlock? && blocks[0].toolUseId.Some? then [blocks[0].toolUseId.value] else [];
      head + ResultIds(blocks[1..])
  }

  /** `blocks` answers `calls` one for one, in order: block k is the result block of call k. */
  predicate ResultsFor(blocks: seq<Block>, calls: seq<ToolCall>) {
    |blocks| == |calls| &&
    forall k :: 0 <= k < |blocks| ==> blocks[k].ToolResultBlock? && blocks[k] == ResultBlock(calls[k], blocks[k].content)
  }

  /** `blocks` answers the first `|blocks|` of `calls`, one for one and in order. */
  predicate AnswersPrefix(blocks: seq<Block>, calls: seq<ToolCall>) {
    |blocks| <= |calls| &&
    forall k :: 0 <= k < |blocks| ==> blocks[k].ToolResultBlock? && blocks[k] == ResultBlock(calls[k], blocks[k].content)
  }

  /** Appending the result for the next call keeps the results paired one for one with the calls. */
  lemma AnswersSnoc(blocks: seq<Block>, calls: seq<ToolCall>, text: string)
    requires AnswersPrefix(blocks, calls) && |blocks| < |calls|
    ensures AnswersPrefix(blocks + [ResultBlock(calls[|blocks|], text)], calls)
  {
    var bs := blocks + [ResultBlock(calls[|blocks|], text)];
    forall k | 0 <= k < |bs| ensures bs[k].ToolResultBlock? && bs[k] == ResultBlock(calls[k], bs[k].content) {
      if k < |blocks| {
        assert bs[k] == blocks[k];
      }
    }
  }

  /** An assistant turn requesting tools and the user turn answering each request in order. */
  predicate IsToolRound(assistant: Message, user: Message) {
    assistant.role == "assistant" && assistant.content.Blocks? &&
    user.role == "user" && user.content.Blocks? &&
    (forall k :: 0 <= k < |user.content.blocks| ==> user.content.blocks[k].ToolResultBlock?) &&
    UseIds(assistant.content.blocks) != [] &&
    UseIds(assistant.content.blocks) == ResultIds(user.content.blocks)
  }

  /** The user turn answering `calls`: one result block per call, in order. */
  predicate AnswersCalls(m: Message, calls: seq<ToolCall>) {
    m.role == "user" && m.content.Blocks? && ResultsFor(m.content.blocks, calls)
  }

  /**
   * `tail` records `rounds`: for each response that requested tools, the
   * assistant message built from it, then the user message answering its calls.
   */
  predicate Transcript(tail: seq<Message>, rounds: seq<LlmResponse>)
    decreases |rounds|
  {
    if rounds == [] then tail == []
    else
      |tail| >= 2 && rounds[0].toolCalls != [] && tail[0] == AssistantMessage(rounds[0]) &&
      AnswersCalls(tail[1], rounds[0].toolCalls) && Transcript(tail[2..], rounds[1..])
  }

  predicate ProperRounds(ms: seq<Message>)
    decreases |ms|
  {
    |ms| == 0 || (|ms| >= 2 && IsToolRound(ms[0], ms[1]) && ProperRounds(ms[2..]))
  }

  /** A conversation: the user's message, then complete tool rounds. */
  predicate ProperHistory(ms: seq<Message>) {
    |ms| >= 1 && ms[0].role == "user" && ms[0].content.Plain? && ProperRounds(ms[1..])
  }

  lemma {:induction false} UseIdsAppend(a: seq<Block>, b: seq<Block>)
    ensures UseIds(a + b) == UseIds(a) + UseIds(b)
    decreases |a|
  {
    if |a| == 0 {
      assert a + b == b;
    } else {
      assert (a + b)[0] == a[0];
      assert (a + b)[1..] == a[1..] + b;
      UseIdsAppend(a[1..], b);
    }
  }

  lemma {:induction false} UseIdsOfCalls(calls: seq<ToolCall>)
    ensures UseIds(UseBlocks(calls)) == CallIds(calls)
    decreases |calls|
  {
    if |calls| > 0 {
      UseIdsOfCalls(calls[1..]);
      assert UseBlocks(calls)[1..] == UseBlocks(calls[1..]);
      assert CallIds(calls) == [calls[0].id] + CallIds(calls[1..]);
    }
  }

  lemma {:induction false} ResultIdsOfResults(blocks: seq<Block>, calls: seq<ToolCall>)
    requires ResultsFor(blocks, calls)
    ensures ResultIds(blocks) == CallIds(calls)
    decreases |calls|
  {
    if |calls| > 0 {
      assert ResultsFor(blocks[1..], calls[1..]);
      ResultIdsOfResults(blocks[1..], calls[1..]);
      assert CallIds(calls) == [calls[0].id] + CallIds(calls[1..]);
    }
  }

  /**
   * `blocks` holds a text block exactly when the response has text, and
   * then first; after it, the tool_use blocks of the calls, in order.
   */
  predicate LaidOut(blocks: seq<Block>, response: LlmResponse) {
    var lead := if response.text != "" then 1 else 0;
    |blocks| == |response.toolCalls| + lead &&
    (response.text != "" ==> blocks[0] == TextBlock(response.text)) &&
    blocks[lead..] == UseBlocks(response.toolCalls)
  }

  lemma AssistantLayout(response: LlmResponse)
    ensures AssistantMessage(response).role == "assistant" && AssistantMessage(response).content.Blocks?
    ensures LaidOut(AssistantMessage(response).content.blocks, response)
  {
    var uses := UseBlocks(response.toolCalls);
    var bs := AssistantMessage(response).content.blocks;
    if response.text != "" {
      assert bs == [TextBlock(response.text)] + uses;
      assert bs[1..] == uses;
    } else {
      assert bs == uses;
      assert bs[0..] == uses;
    }
  }

  /** A response with tool calls and its answers form a proper round, laid out as `AssistantLayout` says. */
  lemma RoundIsProper(response: LlmResponse, results: seq<Block>)
    requires response.toolCalls != []
    requires ResultsFor(results, response.toolCalls)
    ensures IsToolRound(AssistantMessage(response), Message("user", Blocks(results)))
    ensures AnswersCalls(Message("user", Blocks(results)), response.toolCalls)
    ensures LaidOut(AssistantMessage(response).content.blocks, response)
  {
    AssistantLayout(response);
    var pre: seq<Block> := if response.text != "" then [TextBlock(response.text)] else [];
    UseIdsAppend(pre, UseBlocks(response.toolCalls));
    UseIdsOfCalls(response.toolCalls);
    ResultIdsOfResults(results, response.toolCalls);
    assert UseIds(pre) == [];
  }

  lemma {:induction false} ProperRoundsAppend(ms: seq<Message>, x: Message, y: Message)
    requires ProperRounds(ms) && IsToolRound(x, y)
    ensures ProperRounds(ms + [x, y])
    decreases |ms|
  {
    if |ms| == 0 {
      assert ms + [x, y] == [x, y];
      assert ([x, y])[2..] == [];
    } else {
      ProperRoundsAppend(ms[2..], x, y);
      assert (ms + [x, y])[2..] == ms[2..] + [x, y];
    }
  }

  // ----- oracles and outcomes -----

  datatype Reply = Answer(response: LlmResponse) | ProviderFailed(error: string)
  datatype ToolOutput = Returned(result: CallResult) | ToolFailed(error: string)
  datatype Tapes = Tapes(replies: seq<Reply>, outputs: seq<ToolOutput>)

  /** `rest` is what remains of `t` after consuming a prefix of each tape. */
  predicate Consumed(t: Tapes, rest: Tapes) {
    |rest.replies| <= |t.replies| && rest.replies == t.replies[|t.replies| - |rest.replies|..] &&
    |rest.outputs| <= |t.outputs| && rest.outputs == t.outputs[|t.outputs| - |rest.outputs|..]
  }

  lemma ConsumedTrans(a: Tapes, b: Tapes, c: Tapes)
    requires Consumed(a, b) && Consumed(b, c)
    ensures Consumed(a, c)
  {
  }

  lemma ConsumedIndex(a: Tapes, b: Tapes, k: nat)
    requires Consumed(a, b) && k < |b.replies|
    ensures b.replies[k] == a.replies[|a.replies| - |b.replies| + k]
  {
  }

  /** The last provider reply consumed before `rest` answered with `text` and requested no tools. */
  predicate EndsWithAnswer(t: Tapes, rest: Tapes, text: string) {
    |rest.replies| < |t.replies| &&
    var last := t.replies[|t.replies| - |rest.replies| - 1];
    last.Answer? && last.response.toolCalls == [] && last.response.text == text
  }

  lemma EndsWithAnswerTrans(a: Tapes, b: Tapes, c: Tapes, text: string)
    requires Consumed(a, b) && Consumed(b, c) && EndsWithAnswer(b, c, text)
    ensures Consumed(a, c) && EndsWithAnswer(a, c, text)
  {
    ConsumedTrans(a, b, c);
    ConsumedIndex(a, b, |b.replies| - |c.replies| - 1);
  }

  datatype Outcome<T> = Done(value: T, rest: Tapes) | Raised(error: string) | Stalled

  /** One `provider.chat` call as the agent issues it. */
  datatype ChatRequest = ChatRequest(messages: seq<Message>, system: string, tools: Option<seq<ToolSchema>>)

  /**
   * The result of one `run`, with the conversation and the requests it
   * produced, and the provider responses that requested tools, in order.
   */
  datatype RunTrace = RunTrace(result: AgentResult, history: seq<Message>, requests: seq<ChatRequest>, rounds: seq<LlmResponse>)

  datatype ToolStep = ToolStep(text: string, events: seq<string>)
  datatype RoundState = RoundState(events: seq<string>, results: seq<Block>)

  /** `tools if tools else None`. */
  function ChatTools(schemas: seq<ToolSchema>): (r: Option<seq<ToolSchema>>)
    ensures r.None? <==> schemas == []
    ensures r.Some? ==> r.value == schemas
  {
    if schemas == [] then None else Some(schemas)
  }

  /** Every request after the first extends its predecessor by exactly two messages. */
  predicate Chained(rs: seq<ChatRequest>) {
    forall k :: 0 <= k < |rs| - 1 ==>
      |rs[k + 1].messages| == |rs[k].messages| + 2 && rs[k + 1].messages[..|rs[k].messages|] == rs[k].messages
  }

  /** `history` is a proper conversation that continues `msgs`. */
  predicate Extends(history: seq<Message>, msgs: seq<Message>) {
    ProperHistory(history) && |history| >= |msgs| && history[..|msgs|] == msgs
  }

  /**
   * The requests of one run: the first carries `msgs`, each later one adds
   * one round, the last carries the final `history`, and all share the
   * system prompt and tool list.
   */
  predicate RequestsFit(rs: seq<ChatRequest>, msgs: seq<Message>, history: seq<Message>, system: string, tools: Option<seq<ToolSchema>>) {
    rs != [] && rs[0].messages == msgs && Chained(rs) && rs[|rs| - 1].messages == history &&
    forall k :: 0 <= k < |rs| ==> rs[k].system == system && rs[k].tools == tools
  }

  /** Every response in `rs` is a provider reply consumed between `t` and `rest`. */
  predicate FromReplies(t: Tapes, rest: Tapes, rs: seq<LlmResponse>) {
    |rest.replies| <= |t.replies| &&
    forall k :: 0 <= k < |rs| ==> Answer(rs[k]) in t.replies[..|t.replies| - |rest.replies|]
  }

  lemma FromRepliesWiden(a: Tapes, b: Tapes, c: Tapes, rs: seq<LlmResponse>)
    requires Consumed(a, b) && Consumed(b, c) && FromReplies(b, c, rs)
    ensures FromReplies(a, c, rs)
  {
    var d := |a.replies| - |b.replies|;
    var used := b.replies[..|b.replies| - |c.replies|];
    forall k | 0 <= k < |rs| ensures Answer(rs[k]) in a.replies[..|a.replies| - |c.replies|] {
      var j :| 0 <= j < |used| && used[j] == Answer(rs[k]);
      ConsumedIndex(a, b, j);
      assert a.replies[..|a.replies| - |c.replies|][d + j] == Answer(rs[k]);
    }
  }

  /**
   * What a run that continued `msgs` records: the history past `msgs` is
   * the transcript of its tool rounds, one request precedes each round and
   * one the final answer, and each round is a consumed reply, the first
   * round being the first reply; with no round, exactly one reply was used.
   */
  predicate Recorded(t: Tapes, rest: Tapes, msgs: seq<Message>, trace: RunTrace) {
    |msgs| <= |trace.history| && Transcript(trace.history[|msgs|..], trace.rounds) &&
    |trace.requests| == |trace.rounds| + 1 && FromReplies(t, rest, trace.rounds) && |t.replies| > 0 &&
    (trace.rounds != [] ==> t.replies[0] == Answer(trace.rounds[0])) &&
    (trace.rounds == [] ==> rest == t.(replies := t.replies[1..]))
  }

  /** A run whose first reply requested tools, continued as `Continue` promises, is recorded. */
  lemma RoundRecorded(t: Tapes, t2: Tapes, rest: Tapes, msgs: seq<Message>, response: LlmResponse, trace: RunTrace)
    requires |t.replies| > 0 && t.replies[0] == Answer(response)
    requires Consumed(t.(replies := t.replies[1..]), t2) && Consumed(t2, rest)
    requires trace.rounds != [] && trace.rounds[0] == response
    requires |msgs| <= |trace.history| && Transcript(trace.history[|msgs|..], trace.rounds)
    requires |trace.requests| == |trace.rounds| + 1 && FromReplies(t2, rest, trace.rounds[1..])
    ensures Recorded(t, rest, msgs, trace)
  {
    var t1 := t.(replies := t.replies[1..]);
    ConsumedTrans(t, t1, t2);
    FromRepliesWiden(t, t2, rest, trace.rounds[1..]);
    assert t.replies[..|t.replies| - |rest.replies|][0] == Answer(response);
    assert trace.rounds == [response] + trace.rounds[1..];
  }

  lemma ExtendsPrefix(history: seq<Message>, next: seq<Message>, msgs: seq<Message>)
    requires Extends(history, next) && |msgs| <= |next| && next[..|msgs|] == msgs && ProperHistory(msgs)
    ensures Extends(history, msgs)
  {
    assert history[..|msgs|] == history[..|next|][..|msgs|];
  }

  /** Prepending the request that led to a round keeps the request list fitting. */
  lemma RequestsCons(r: ChatRequest, rs: seq<ChatRequest>, msgs: seq<Message>, next: seq<Message>, history: seq<Message>, system: string, tools: Option<seq<ToolSchema>>)
    requires RequestsFit(rs, next, history, system, tools)
    requires r == ChatRequest(msgs, system, tools) && |next| == |msgs| + 2 && next[..|msgs|] == msgs
    ensures RequestsFit([r] + rs, msgs, history, system, tools)
  {
    var all := [r] + rs;
    forall k | 0 <= k < |all| - 1
      ensures |all[k + 1].messages| == |all[k].messages| + 2 && all[k + 1].messages[..|all[k].messages|] == all[k].messages
    {
      if k > 0 {
        assert all[k] == rs[k - 1] && all[k + 1] == rs[k];
      }
    }
    forall k | 0 <= k < |all| ensures all[k].system == system && all[k].tools == tools {
      if k > 0 {
        assert all[k] == rs[k - 1];
      }
    }
  }

  // ----- debug events -----

  /** At most 200 characters of a tool result, marked with "..." when cut. */
  function TruncateForDebug(s: string): (r: string)
    ensures |s| <= MaxDebugResultLength ==> r == s
    ensures |s| > MaxDebugResultLength ==> |r| == MaxDebugResultLength + 3 && r[MaxDebugResultLength..] == "..."
    ensures r[..if |s| <= MaxDebugResultLength then |s| else MaxDebugResultLength] == s[..if |s| <= MaxDebugResultLength then |s| else MaxDebugResultLength]
  {
    if |s| > MaxDebugResultLength then s[..MaxDebugResultLength] + "..." else s
  }

  function Tag(agent: AgentState): string {
    "[" + agent.name + "] "
  }

  function SkillsLoadedEvent(agent: AgentState): string {
    Tag(agent) + "Skills loaded: " + (if agent.skills != [] then Join(agent.skills, ", ") else "(none)")
  }

  function CallingEvent(agent: AgentState): string {
    Tag(agent) + "Calling LLM..."
  }

  function ToolCallEvent(agent: AgentState, call: ToolCall): string {
    Tag(agent) + "Tool call: " + call.name + "(" + Encode(call.input) + ")"
  }

  function ToolResultEvent(agent: AgentState, text: string): string {
    Tag(agent) + "Tool result: " + TruncateForDebug(text)
  }

  function DelegatingEvent(agent: AgentState, target: string, message: string): string {
    Tag(agent) + "Delegating to agent '" + target + "' with message: " + message
  }

  function When(debug: bool, event: string): seq<string> {
    if debug then [event] else []
  }

  /** `arguments.get("message", "")`; a non-string value is rendered as its JSON text. */
  function DelegationMessage(input: Json): string
    requires input.JObj?
  {
    match Lookup(input.fields, "message")
    case None => ""
    case Some(JStr(s)) => s
    case Some(other) => Encode(other)
  }

  /** The `AttributeError` that `arguments.get` raises on a decoded value that is not an object. */
  function NoGetError(input: Json): string {
    "'" + TypeName(input) + "' object has no attribute 'get'"
  }

  /** `json.dumps` of the error objects `_execute_tool` answers with when it cannot run a tool (see `Json.EncodeErrorObject`). */
  const NoManagerReply := "{\"error\": \"Tool manager not initialized\"}"
  const NoRunnerReply := "{\"error\": \"Agent delegation not available\"}"

  function AgentNotFound(name: string): string {
    Encode(ErrorObject("Agent '" + name + "' not found"))
  }

  // ----- the run -----

  /** The tool list offered to the provider: the router's schemas, or none. */
  function OfferedTools(agent: AgentState): (r: Option<seq<ToolSchema>>)
    ensures r.None? <==> agent.manager.None? || ToolSchemas(agent.manager.value) == []
  {
    ChatTools(if agent.manager.Some? then ToolSchemas(agent.manager.value) else [])
  }

  /** `Agent.run(message, depth, debug)`. */
  function Run(reg: map<string, AgentState>, agent: AgentState, message: string, depth: int, debug: bool, t: Tapes): (o: Outcome<RunTrace>)
    ensures depth >= MaxRecursionDepth ==> o == Done(RunTrace(AgentResult(DepthExceeded, []), [], [], []), t)
    ensures o.Done? ==> Consumed(t, o.rest)
    ensures o.Done? && !debug ==> o.value.result.debugEvents == []
    decreases |t.replies|, 1
  {
    if depth >= MaxRecursionDepth then Done(RunTrace(AgentResult(DepthExceeded, []), [], [], []), t)
    else
      Loop(reg, agent, depth, debug, OfferedTools(agent), [UserMessage(message)], When(debug, SkillsLoadedEvent(agent)), t)
  }

  /**
   * A run below the depth limit that completes leaves a proper history
   * opened by the message, one request per provider call, and the final
   * answer's text as its result.
   */
  lemma RunRecords(reg: map<string, AgentState>, agent: AgentState, message: string, depth: int, debug: bool, t: Tapes)
    requires depth < MaxRecursionDepth && Run(reg, agent, message, depth, debug, t).Done?
    ensures var o := Run(reg, agent, message, depth, debug, t);
      ProperHistory(o.value.history) && o.value.history[0] == UserMessage(message) &&
      RequestsFit(o.value.requests, [UserMessage(message)], o.value.history, agent.systemPrompt, OfferedTools(agent)) &&
      EndsWithAnswer(t, o.rest, o.value.result.text) &&
      Recorded(t, o.rest, [UserMessage(message)], o.value)
  {
    LoopRecords(reg, agent, depth, debug, OfferedTools(agent), [UserMessage(message)], When(debug, SkillsLoadedEvent(agent)), t);
  }

  /** One iteration of the `while True` loop and everything after it. */
  function Loop(
    reg: map<string, AgentState>, agent: AgentState, depth: int, debug: bool,
    tools: Option<seq<ToolSchema>>, msgs: seq<Message>, events: seq<string>, t: Tapes): (o: Outcome<RunTrace>)
    requires ProperHistory(msgs)
    ensures o.Done? ==> Consumed(t, o.rest)
    ensures o.Done? && !debug ==> o.value.result.debugEvents == events
    decreases |t.replies|, 0
  {
    if |t.replies| == 0 then Stalled
    else match t.replies[0]
      case ProviderFailed(e) => Raised(e)
      case Answer(response) =>
        var t1 := t.(replies := t.replies[1..]);
        var o := Respond(reg, agent, depth, debug, tools, msgs, events, response, t1);
        if o.Done? then ConsumedTrans(t, t1, o.rest); o else o
  }

  /** What the loop does with one provider response, read off the reply tape before `t`. */
  function Respond(
    reg: map<string, AgentState>, agent: AgentState, depth: int, debug: bool,
    tools: Option<seq<ToolSchema>>, msgs: seq<Message>, events: seq<string>, response: LlmResponse, t: Tapes): (o: Outcome<RunTrace>)
    requires ProperHistory(msgs)
    ensures o.Done? ==> Consumed(t, o.rest)
    ensures o.Done? && !debug ==> o.value.result.debugEvents == events
    decreases |t.replies|, 5
  {
    var events1 := events + When(debug, CallingEvent(agent));
    if response.toolCalls == [] then
      Done(RunTrace(AgentResult(response.text, events1), msgs, [ChatRequest(msgs, agent.systemPrompt, tools)], []), t)
    else
      match ExecCalls(reg, agent, depth, debug, response.toolCalls, 0, RoundState(events1, []), t)
      case Raised(e) => Raised(e)
      case Stalled => Stalled
      case Done(round, t2) =>
        var o := Continue(reg, agent, depth, debug, tools, msgs, response, round, t2);
        if o.Done? then ConsumedTrans(t, t2, o.rest); o else o
  }

  /** The rest of a run after a tool round: record both messages and loop again. */
  function Continue(
    reg: map<string, AgentState>, agent: AgentState, depth: int, debug: bool,
    tools: Option<seq<ToolSchema>>, msgs: seq<Message>, response: LlmResponse, round: RoundState, t: Tapes): (o: Outcome<RunTrace>)
    requires ProperHistory(msgs)
    requires response.toolCalls != [] && ResultsFor(round.results, response.toolCalls)
    ensures o.Done? ==> Consumed(t, o.rest)
    ensures o.Done? && !debug ==> o.value.result.debugEvents == round.events
    decreases |t.replies|, 1
  {
    var request := ChatRequest(msgs, agent.systemPrompt, tools);
    var next := ContinuedHistory(msgs, response, round.results);
    match Loop(reg, agent, depth, debug, tools, next, round.events, t)
    case Raised(e) => Raised(e)
    case Stalled => Stalled
    case Done(trace, rest) =>
      Done(trace.(requests := [request] + trace.requests, rounds := [response] + trace.rounds), rest)
  }

  /** The history the loop resumes with after a round: the assistant message, then the results. */
  function ContinuedHistory(msgs: seq<Message>, response: LlmResponse, results: seq<Block>): (r: seq<Message>)
    requires ProperHistory(msgs)
    requires response.toolCalls != [] && ResultsFor(results, response.toolCalls)
    ensures ProperHistory(r)
    ensures r == msgs + [AssistantMessage(response), Message("user", Blocks(results))]
  {
    var user := Message("user", Blocks(results));
    RoundIsProper(response, results);
    var next := msgs + [AssistantMessage(response), user];
    ProperRoundsAppend(msgs[1..], AssistantMessage(response), user);
    assert next[1..] == msgs[1..] + [AssistantMessage(response), user];
    next
  }

  /**
   * A completed loop extends the history it was given, sends one request
   * per reply it consumed, each over the history as it stood, and ends on
   * a reply without tool calls whose text is the result.
   */
  lemma LoopRecords(
    reg: map<string, AgentState>, agent: AgentState, depth: int, debug: bool,
    tools: Option<seq<ToolSchema>>, msgs: seq<Message>, events: seq<string>, t: Tapes)
    requires ProperHistory(msgs)
    requires Loop(reg, agent, depth, debug, tools, msgs, events, t).Done?
    ensures var o := Loop(reg, agent, depth, debug, tools, msgs, events, t);
      Extends(o.value.history, msgs) &&
      RequestsFit(o.value.requests, msgs, o.value.history, agent.systemPrompt, tools) &&
      EndsWithAnswer(t, o.rest, o.value.result.text) &&
      Recorded(t, o.rest, msgs, o.value)
    decreases |t.replies|, 0
  {
    var events1 := events + When(debug, CallingEvent(agent));
    var response := t.replies[0].response;
    var t1 := t.(replies := t.replies[1..]);
    if response.toolCalls == [] {
      assert msgs[|msgs|..] == [];
    } else {
      var ex := ExecCalls(reg, agent, depth, debug, response.toolCalls, 0, RoundState(events1, []), t1);
      var t2 := ex.rest;
      ContinueRecords(reg, agent, depth, debug, tools, msgs, response, ex.value, t2);
      var o := Continue(reg, agent, depth, debug, tools, msgs, response, ex.value, t2);
      ConsumedTrans(t, t1, t2);
      EndsWithAnswerTrans(t, t2, o.rest, o.value.result.text);
      RoundRecorded(t, t2, o.rest, msgs, response, o.value);
    }
  }

  /**
   * After a round, the history holds the assistant message of that
   * response and then the user message of exactly those results, and the
   * rounds that follow are recorded after them.
   */
  lemma ContinueRecords(
    reg: map<string, AgentState>, agent: AgentState, depth: int, debug: bool,
    tools: Option<seq<ToolSchema>>, msgs: seq<Message>, response: LlmResponse, round: RoundState, t: Tapes)
    requires ProperHistory(msgs)
    requires response.toolCalls != [] && ResultsFor(round.results, response.toolCalls)
    requires Continue(reg, agent, depth, debug, tools, msgs, response, round, t).Done?
    ensures var o := Continue(reg, agent, depth, debug, tools, msgs, response, round, t);
      Extends(o.value.history, msgs) &&
      RequestsFit(o.value.requests, msgs, o.value.history, agent.systemPrompt, tools) &&
      EndsWithAnswer(t, o.rest, o.value.result.text)
    ensures var o := Continue(reg, agent, depth, debug, tools, msgs, response, round, t);
      o.value.rounds != [] && o.value.rounds[0] == response && |o.value.history| >= |msgs| + 2 &&
      o.value.history[|msgs|] == AssistantMessage(response) && o.value.history[|msgs| + 1] == Message("user", Blocks(round.results))
    ensures var o := Continue(reg, agent, depth, debug, tools, msgs, response, round, t);
      Transcript(o.value.history[|msgs|..], o.value.rounds) && |o.value.requests| == |o.value.rounds| + 1 &&
      FromReplies(t, o.rest, o.value.rounds[1..])
    decreases |t.replies|, 1
  {
    var request := ChatRequest(msgs, agent.systemPrompt, tools);
    var next := ContinuedHistory(msgs, response, round.results);
    ContinueFields(reg, agent, depth, debug, tools, msgs, response, round, t);
    LoopRecords(reg, agent, depth, debug, tools, next, round.events, t);
    var inner := Loop(reg, agent, depth, debug, tools, next, round.events, t);
    var trace := inner.value;
    assert next[..|msgs|] == msgs;
    ExtendsPrefix(trace.history, next, msgs);
    RequestsCons(request, trace.requests, msgs, next, trace.history, agent.systemPrompt, tools);
    var tail := trace.history[|msgs|..];
    assert tail[0] == next[|msgs|] && tail[1] == next[|msgs| + 1];
    assert tail[2..] == trace.history[|next|..];
    var all := [response] + trace.rounds;
    assert all[1..] == trace.rounds;
  }

  /** `Continue` returns the inner loop's trace with its request and response put in front. */
  lemma ContinueFields(
    reg: map<string, AgentState>, agent: AgentState, depth: int, debug: bool,
    tools: Option<seq<ToolSchema>>, msgs: seq<Message>, response: LlmResponse, round: RoundState, t: Tapes)
    requires ProperHistory(msgs)
    requires response.toolCalls != [] && ResultsFor(round.results, response.toolCalls)
    requires Continue(reg, agent, depth, debug, tools, msgs, response, round, t).Done?
    ensures var o := Continue(reg, agent, depth, debug, tools, msgs, response, round, t);
      var inner := Loop(reg, agent, depth, debug, tools, ContinuedHistory(msgs, response, round.results), round.events, t);
      inner.Done? && o.rest == inner.rest && o.value.result == inner.value.result &&
      o.value.history == inner.value.history &&
      o.value.requests == [ChatRequest(msgs, agent.systemPrompt, tools)] + inner.value.requests &&
      o.value.rounds == [response] + inner.value.rounds
  {
  }

  /**
   * The user message after the first assistant message of a run holds
   * the results that executing the first reply's calls produced.
   */
  lemma FirstRoundResults(
    reg: map<string, AgentState>, agent: AgentState, depth: int, debug: bool,
    tools: Option<seq<ToolSchema>>, msgs: seq<Message>, events: seq<string>, t: Tapes)
    requires ProperHistory(msgs)
    requires Loop(reg, agent, depth, debug, tools, msgs, events, t).Done?
    requires Loop(reg, agent, depth, debug, tools, msgs, events, t).value.rounds != []
    ensures |t.replies| > 0
    ensures var trace := Loop(reg, agent, depth, debug, tools, msgs, events, t).value;
      var first := ExecCalls(reg, agent, depth, debug, trace.rounds[0].toolCalls, 0,
        RoundState(events + When(debug, CallingEvent(agent)), []), t.(replies := t.replies[1..]));
      first.Done? && |msgs| + 1 < |trace.history| && trace.history[|msgs| + 1] == Message("user", Blocks(first.value.results))
  {
    var response := t.replies[0].response;
    var t1 := t.(replies := t.replies[1..]);
    var ex := ExecCalls(reg, agent, depth, debug, response.toolCalls, 0, RoundState(events + When(debug, CallingEvent(agent)), []), t1);
    ContinueRecords(reg, agent, depth, debug, tools, msgs, response, ex.value, ex.rest);
  }

  /** `b` begins with `a`. */
  predicate StartsWith(b: seq<Block>, a: seq<Block>) {
    |a| <= |b| && b[..|a|] == a
  }

  lemma StartsWithSnoc(b: seq<Block>, a: seq<Block>, x: Block)
    requires StartsWith(b, a + [x])
    ensures StartsWith(b, a)
  {
    assert b[..|a|] == b[..|a| + 1][..|a|];
  }

  /** The round after one call: its result block appended, and the result event when debugging. */
  function AfterCall(acc: RoundState, agent: AgentState, call: ToolCall, step: ToolStep, debug: bool): (r: RoundState)
    ensures r.results == acc.results + [ResultBlock(call, step.text)]
    ensures !debug ==> r.events == step.events
    ensures debug ==> r.events == step.events + [ToolResultEvent(agent, step.text)]
  {
    RoundState(step.events + When(debug, ToolResultEvent(agent, step.text)), acc.results + [ResultBlock(call, step.text)])
  }

  /** Executes `calls[i..]` in order, appending one result block per call. */
  function ExecCalls(
    reg: map<string, AgentState>, agent: AgentState, depth: int, debug: bool,
    calls: seq<ToolCall>, i: nat, acc: RoundState, t: Tapes): (o: Outcome<RoundState>)
    requires |acc.results| == i && AnswersPrefix(acc.results, calls)
    ensures o.Done? ==> Consumed(t, o.rest)
    ensures o.Done? && !debug ==> o.value.events == acc.events
    ensures o.Done? ==> ResultsFor(o.value.results, calls)
    ensures o.Done? ==> StartsWith(o.value.results, acc.results)
    decreases |t.replies|, 4, |calls| - i
  {
    if i == |calls| then Done(acc, t)
    else
      var call := calls[i];
      match ExecuteTool(reg, agent, call.name, call.input, depth, debug, acc.events + When(debug, ToolCallEvent(agent, call)), t)
      case Raised(e) => Raised(e)
      case Stalled => Stalled
      case Done(step, t2) =>
        AnswersSnoc(acc.results, calls, step.text);
        var next := AfterCall(acc, agent, call, step, debug);
        match ExecCalls(reg, agent, depth, debug, calls, i + 1, next, t2)
        case Raised(e) => Raised(e)
        case Stalled => Stalled
        case Done(round, t3) =>
          ConsumedTrans(t, t2, t3);
          StartsWithSnoc(round.results, acc.results, ResultBlock(call, step.text));
          Done(round, t3)
  }

  /** `_execute_tool`. */
  function ExecuteTool(
    reg: map<string, AgentState>, agent: AgentState, name: string, input: Json,
    depth: int, debug: bool, events: seq<string>, t: Tapes): (o: Outcome<ToolStep>)
    ensures o.Done? ==> Consumed(t, o.rest)
    ensures o.Done? && !debug ==> o.value.events == events
    ensures agent.manager.None? ==> o == Done(ToolStep(NoManagerReply, events), t)
    decreases |t.replies|, 3
  {
    if agent.manager.None? then Done(ToolStep(NoManagerReply, events), t)
    else
      var router := agent.manager.value;
      var delegated := IsAgentTool(router.agentToolNames, name);
      if delegated.Some? then
        var target := delegated.value;
        if !agent.canDelegate then Done(ToolStep(NoRunnerReply, events), t)
        else if !input.JObj? then Raised(NoGetError(input))
        else
          var message := DelegationMessage(input);
          var events1 := events + When(debug, DelegatingEvent(agent, target, message));
          match Delegate(reg, target, message, depth + 1, debug, t)
          case Raised(e) => Raised(e)
          case Stalled => Stalled
          case Done(result, t2) =>
            Done(ToolStep(result.text, if debug then events1 + result.debugEvents else events1), t2)
      else
        match CallTool(router, name)
        case Unrouted(reply) => Done(ToolStep(reply, events), t)
        case NoClient(key) => Raised("'" + key + "'")
        case Forward(route) =>
          if |t.outputs| == 0 then Stalled
          else match t.outputs[0]
            case ToolFailed(e) => Raised(e)
            case Returned(result) => Done(ToolStep(Flatten(result), events), t.(outputs := t.outputs[1..]))
  }

  /** `_delegate_to_agent`: an unknown agent answers with a JSON error instead of running. */
  function Delegate(reg: map<string, AgentState>, target: string, message: string, depth: int, debug: bool, t: Tapes): (o: Outcome<AgentResult>)
    ensures target !in reg ==> o == Done(AgentResult(AgentNotFound(target), []), t)
    ensures o.Done? ==> Consumed(t, o.rest)
    ensures o.Done? && !debug ==> o.value.debugEvents == []
    decreases |t.replies|, 2
  {
    if target !in reg then Done(AgentResult(AgentNotFound(target), []), t)
    else
      match Run(reg, reg[target], message, depth, debug, t)
      case Done(trace, rest) => Done(trace.result, rest)
      case Raised(e) => Raised(e)
      case Stalled => Stalled
  }

  /** Delegating to a registered agent runs it: the same outcome, keeping only its text and events. */
  lemma DelegateRuns(reg: map<string, AgentState>, target: string, message: string, depth: int, debug: bool, t: Tapes)
    requires target in reg
    ensures var o := Delegate(reg, target, message, depth, debug, t);
      match Run(reg, reg[target], message, depth, debug, t)
      case Done(trace, rest) => o == Done(trace.result, rest)
      case Raised(e) => o == Raised(e)
      case Stalled => o == Stalled
  {
  }

  // ----- properties of whole runs -----

  /** A first reply without tool calls ends the run with its text after a single request. */
  lemma RunAnswersDirectly(reg: map<string, AgentState>, agent: AgentState, message: string, depth: int, debug: bool, t: Tapes)
    requires depth < MaxRecursionDepth
    requires |t.replies| > 0 && t.replies[0].Answer? && t.replies[0].response.toolCalls == []
    ensures Run(reg, agent, message, depth, debug, t) == Done(
      RunTrace(
        AgentResult(t.replies[0].response.text, When(debug, SkillsLoadedEvent(agent)) + When(debug, CallingEvent(agent))),
        [UserMessage(message)],
        [ChatRequest([UserMessage(message)], agent.systemPrompt, OfferedTools(agent))],
        []),
      t.(replies := t.replies[1..]))
  {
    var msgs := [UserMessage(message)];
    var events := When(debug, SkillsLoadedEvent(agent));
    var t1 := t.(replies := t.replies[1..]);
    assert Loop(reg, agent, depth, debug, OfferedTools(agent), msgs, events, t) ==
      Respond(reg, agent, depth, debug, OfferedTools(agent), msgs, events, t.replies[0].response, t1);
  }

  /** A name nobody routes is answered with the unknown-tool error, touching no oracle. */
  lemma UnknownToolAnsweredLocally(
    reg: map<string, AgentState>, agent: AgentState, name: string, input: Json, depth: int, debug: bool, events: seq<string>, t: Tapes)
    requires agent.manager.Some?
    requires IsAgentTool(agent.manager.value.agentToolNames, name).None?
    requires !HasKey(agent.manager.value.routes, name)
    ensures ExecuteTool(reg, agent, name, input, depth, debug, events, t) == Done(ToolStep(UnknownToolError(name), events), t)
  {
  }

  /** A routed call consumes exactly one MCP output and answers with its flattened text. */
  lemma RoutedToolConsumesOneOutput(
    reg: map<string, AgentState>, agent: AgentState, name: string, input: Json, depth: int, debug: bool, events: seq<string>, t: Tapes)
    requires agent.manager.Some?
    requires IsAgentTool(agent.manager.value.agentToolNames, name).None?
    requires CallTool(agent.manager.value, name).Forward?
    requires |t.outputs| > 0 && t.outputs[0].Returned?
    ensures ExecuteTool(reg, agent, name, input, depth, debug, events, t)
      == Done(ToolStep(Flatten(t.outputs[0].result), events), t.(outputs := t.outputs[1..]))
  {
  }

  /** Delegation runs the target one level deeper with the call's `message` and hands back its text. */
  lemma DelegationRunsOneLevelDeeper(
    reg: map<string, AgentState>, agent: AgentState, name: string, input: Json, depth: int, debug: bool, events: seq<string>, t: Tapes)
    requires agent.manager.Some? && agent.canDelegate && input.JObj?
    requires IsAgentTool(agent.manager.value.agentToolNames, name).Some?
    requires IsAgentTool(agent.manager.value.agentToolNames, name).value in reg
    ensures var target := IsAgentTool(agent.manager.value.agentToolNames, name).value;
      var inner := Run(reg, reg[target], DelegationMessage(input), depth + 1, debug, t);
      var o := ExecuteTool(reg, agent, name, input, depth, debug, events, t);
      (inner.Done? <==> o.Done?) &&
      (inner.Done? ==> o.value.text == inner.value.result.text && o.rest == inner.rest) &&
      (inner.Raised? ==> o == Raised(inner.error))
  {
    DelegateRuns(reg, IsAgentTool(agent.manager.value.agentToolNames, name).value, DelegationMessage(input), depth + 1, debug, t);
  }

  /** At the depth limit a delegated agent answers with the sentinel and consumes nothing. */
  lemma DelegationAtDepthLimit(
    reg: map<string, AgentState>, agent: AgentState, name: string, input: Json, depth: int, debug: bool, events: seq<string>, t: Tapes)
    requires depth + 1 >= MaxRecursionDepth
    requires agent.manager.Some? && agent.canDelegate && input.JObj?
    requires IsAgentTool(agent.manager.value.agentToolNames, name).Some?
    requires IsAgentTool(agent.manager.value.agentToolNames, name).value in reg
    ensures ExecuteTool(reg, agent, name, input, depth, debug, events, t).Done?
    ensures ExecuteTool(reg, agent, name, input, depth, debug, events, t).value.text == DepthExceeded
    ensures ExecuteTool(reg, agent, name, input, depth, debug, events, t).rest == t
  {
    DelegationRunsOneLevelDeeper(reg, agent, name, input, depth, debug, events, t);
  }

  /** Delegating to an agent the registry lacks yields the not-found error, touching no oracle. */
  lemma DelegationToUnknownAgent(
    reg: map<string, AgentState>, agent: AgentState, name: string, input: Json, depth: int, debug: bool, events: seq<string>, t: Tapes)
    requires agent.manager.Some? && agent.canDelegate && input.JObj?
    requires IsAgentTool(agent.manager.value.agentToolNames, name).Some?
    requires IsAgentTool(agent.manager.value.agentToolNames, name).value !in reg
    ensures ExecuteTool(reg, agent, name, input, depth, debug, events, t).Done?
    ensures ExecuteTool(reg, agent, name, input, depth, debug, events, t).value.text
      == AgentNotFound(IsAgentTool(agent.manager.value.agentToolNames, name).value)
    ensures ExecuteTool(reg, agent, name, input, depth, debug, events, t).rest == t
  {
  }

  /** Delegation reads `message` with `arguments.get`, which fails on anything but an object. */
  lemma DelegationNeedsObject(
    reg: map<string, AgentState>, agent: AgentState, name: string, input: Json, depth: int, debug: bool, events: seq<string>, t: Tapes)
    requires agent.manager.Some? && agent.canDelegate && !input.JObj?
    requires IsAgentTool(agent.manager.value.agentToolNames, name).Some?
    ensures ExecuteTool(reg, agent, name, input, depth, debug, events, t) == Raised(NoGetError(input))
  {
  }

  /** A round that completes ran call i to completion. */
  lemma ExecCallsStepDone(
    reg: map<string, AgentState>, agent: AgentState, depth: int, debug: bool,
    calls: seq<ToolCall>, i: nat, acc: RoundState, t: Tapes)
    requires i < |calls| && |acc.results| == i && AnswersPrefix(acc.results, calls)
    requires ExecCalls(reg, agent, depth, debug, calls, i, acc, t).Done?
    ensures ExecuteTool(reg, agent, calls[i].name, calls[i].input, depth, debug, acc.events + When(debug, ToolCallEvent(agent, calls[i])), t).Done?
  {
  }

  /** After call i completes, the round is the one the remaining calls build on its result. */
  lemma ExecCallsUnfold(
    reg: map<string, AgentState>, agent: AgentState, depth: int, debug: bool,
    calls: seq<ToolCall>, i: nat, acc: RoundState, t: Tapes)
    requires i < |calls| && |acc.results| == i && AnswersPrefix(acc.results, calls)
    requires ExecuteTool(reg, agent, calls[i].name, calls[i].input, depth, debug, acc.events + When(debug, ToolCallEvent(agent, calls[i])), t).Done?
    ensures var step := ExecuteTool(reg, agent, calls[i].name, calls[i].input, depth, debug, acc.events + When(debug, ToolCallEvent(agent, calls[i])), t);
      AnswersPrefix(AfterCall(acc, agent, calls[i], step.value, debug).results, calls)
    ensures var step := ExecuteTool(reg, agent, calls[i].name, calls[i].input, depth, debug, acc.events + When(debug, ToolCallEvent(agent, calls[i])), t);
      var next := AfterCall(acc, agent, calls[i], step.value, debug);
      ExecCalls(reg, agent, depth, debug, calls, i, acc, t) == ExecCalls(reg, agent, depth, debug, calls, i + 1, next, step.rest)
  {
    var step := ExecuteTool(reg, agent, calls[i].name, calls[i].input, depth, debug, acc.events + When(debug, ToolCallEvent(agent, calls[i])), t);
    var next := AfterCall(acc, agent, calls[i], step.value, debug);
    AnswersSnoc(acc.results, calls, step.value.text);
    match ExecCalls(reg, agent, depth, debug, calls, i + 1, next, step.rest)
    case Raised(e) => assert ExecCalls(reg, agent, depth, debug, calls, i, acc, t) == Raised(e);
    case Stalled => assert ExecCalls(reg, agent, depth, debug, calls, i, acc, t) == Stalled;
    case Done(round, t3) => assert ExecCalls(reg, agent, depth, debug, calls, i, acc, t) == Done(round, t3);
  }

  /**
   * Result block i of a round holds the text that executing call i
   * produced, tagged with call i's id.
   */
  lemma ExecCallsResult(
    reg: map<string, AgentState>, agent: AgentState, depth: int, debug: bool,
    calls: seq<ToolCall>, i: nat, acc: RoundState, t: Tapes)
    requires i < |calls| && |acc.results| == i && AnswersPrefix(acc.results, calls)
    requires ExecCalls(reg, agent, depth, debug, calls, i, acc, t).Done?
    ensures var step := ExecuteTool(reg, agent, calls[i].name, calls[i].input, depth, debug, acc.events + When(debug, ToolCallEvent(agent, calls[i])), t);
      step.Done? &&
      ExecCalls(reg, agent, depth, debug, calls, i, acc, t).value.results[i] == ResultBlock(calls[i], step.value.text)
  {
    ExecCallsStepDone(reg, agent, depth, debug, calls, i, acc, t);
    ExecCallsUnfold(reg, agent, depth, debug, calls, i, acc, t);
    var step := ExecuteTool(reg, agent, calls[i].name, calls[i].input, depth, debug, acc.events + When(debug, ToolCallEvent(agent, calls[i])), t);
    var next := AfterCall(acc, agent, calls[i], step.value, debug);
    var results := ExecCalls(reg, agent, depth, debug, calls, i + 1, next, step.rest).value.results;
    assert results[i] == results[..i + 1][i];
  }
}
