/**
 * The Gemini adapter (ezagent/llm/google.py): translation of canonical
 * messages and tool schemas into Gemini's shapes, request configuration,
 * and normalisation of a Gemini response. Tool-call ids are synthesised
 * from uuid4 hex strings, which the model receives as an oracle sequence.
 */
module GoogleProvider {
  import opened Wrappers
  import opened Json
  import opened Strings
  import opened Llm

  const DefaultModel := "gemini-2.0-flash"

  /** A Gemini content part. */
  datatype Part =
    | TextPart(text: string)
    | CallPart(name: string, args: Json)
    | ResponsePart(name: string, response: Json)

  /** A Gemini content entry: a role and its parts. */
  datatype GContent = GContent(role: string, parts: seq<Part>)

  /** Gemini knows only "user" and "model". */
  function GeminiRole(role: string): (r: string)
    ensures r == "model" <==> role == "assistant"
    ensures r == "model" || r == "user"
  {
    if role == "assistant" then "model" else "user"
  }

  /** `block.get("name", block.get("tool_use_id", "unknown"))`. */
  function ResultName(name: Option<string>, toolUseId: Option<string>): string {
    if name.Some? then name.value else if toolUseId.Some? then toolUseId.value else "unknown"
  }

  function ConvertBlock(b: Block): (r: Option<Part>)
    ensures r.None? <==> b.OtherBlock?
  {
    match b
    case TextBlock(t) => Some(TextPart(t))
    case ToolUseBlock(_, name, input) => Some(CallPart(name, input))
    case ToolResultBlock(id, name, content) =>
      Some(ResponsePart(ResultName(name, id), JObj([Field("result", JStr(content))])))
    case OtherBlock(_) => None
  }

  /** Converts blocks in order, dropping block types Gemini has no part for. */
  function ConvertParts(blocks: seq<Block>): (r: seq<Part>)
    ensures |r| <= |blocks|
    ensures r == [] <==> forall k :: 0 <= k < |blocks| ==> blocks[k].OtherBlock?
  {
    if |blocks| == 0 then []
    else
      var rest := ConvertParts(blocks[1..]);
      assert forall k :: 1 <= k < |blocks| ==> blocks[1..][k - 1] == blocks[k];
      match ConvertBlock(blocks[0])
      case Some(p) => [p] + rest
      case None => rest
  }

  /** A message Gemini never sees: block content none of whose blocks converts. */
  predicate Dropped(m: Message) {
    m.content.Blocks? && forall k :: 0 <= k < |m.content.blocks| ==> m.content.blocks[k].OtherBlock?
  }

  function ConvertMessage(m: Message): (r: Option<GContent>)
    ensures r.None? <==> Dropped(m)
    ensures r.Some? ==> r.value.role == GeminiRole(m.role) && r.value.parts != []
    ensures m.content.Plain? ==> r == Some(GContent(GeminiRole(m.role), [TextPart(m.content.text)]))
  {
    match m.content
    case Plain(t) => Some(GContent(GeminiRole(m.role), [TextPart(t)]))
    case Blocks(bs) =>
      var parts := ConvertParts(bs);
      if parts == [] then None else Some(GContent(GeminiRole(m.role), parts))
  }

  /** `_convert_messages`: one entry per message, in order, except dropped ones. */
  function ConvertMessages(ms: seq<Message>): (r: seq<GContent>)
    ensures |r| <= |ms|
    ensures forall k :: 0 <= k < |r| ==> r[k].parts != [] && (r[k].role == "user" || r[k].role == "model")
  {
    if |ms| == 0 then []
    else
      match ConvertMessage(ms[0])
      case Some(c) => [c] + ConvertMessages(ms[1..])
      case None => ConvertMessages(ms[1..])
  }

  /** Number of messages that survive translation. */
  function KeptCount(ms: seq<Message>): nat {
    if |ms| == 0 then 0 else (if Dropped(ms[0]) then 0 else 1) + KeptCount(ms[1..])
  }

  /** Translation preserves order: it distributes over concatenation, and drops exactly the dropped messages. */
  lemma {:induction false} ConvertMessagesAppend(a: seq<Message>, b: seq<Message>)
    ensures ConvertMessages(a + b) == ConvertMessages(a) + ConvertMessages(b)
    ensures KeptCount(a + b) == KeptCount(a) + KeptCount(b)
    decreases |a|
  {
    if |a| == 0 {
      assert a + b == b;
    } else {
      assert (a + b)[0] == a[0];
      assert (a + b)[1..] == a[1..] + b;
      ConvertMessagesAppend(a[1..], b);
    }
  }

  lemma {:induction false} ConvertMessagesCount(ms: seq<Message>)
    ensures |ConvertMessages(ms)| == KeptCount(ms)
  {
    if |ms| > 0 {
      ConvertMessagesCount(ms[1..]);
    }
  }

  // ----- tool declarations -----

  datatype Declaration = Declaration(name: string, description: string, parameters: Json)
  datatype GTool = GTool(declarations: seq<Declaration>)

  const SchemaKey := "$schema"

  function WithoutSchemaKey(fields: seq<Field>): (r: seq<Field>)
    ensures |r| <= |fields|
    ensures forall k :: 0 <= k < |r| ==> r[k].key != SchemaKey
  {
    if |fields| == 0 then []
    else (if fields[0].key == SchemaKey then [] else [fields[0]]) + WithoutSchemaKey(fields[1..])
  }

  lemma {:induction false} WithoutSchemaKeyLookup(fields: seq<Field>, key: string)
    requires key != SchemaKey
    ensures Lookup(WithoutSchemaKey(fields), key) == Lookup(fields, key)
    decreases |fields|
  {
    if |fields| > 0 {
      var last := fields[|fields| - 1];
      var init := fields[..|fields| - 1];
      assert fields == init + [last];
      WithoutSchemaKeyAppend(init, [last]);
      WithoutSchemaKeyLookup(init, key);
      var w := WithoutSchemaKey(init);
      if last.key == SchemaKey {
        assert WithoutSchemaKey([last]) == [];
        assert WithoutSchemaKey(fields) == w;
      } else {
        assert WithoutSchemaKey([last]) == [last];
        var wf := w + [last];
        assert WithoutSchemaKey(fields) == wf;
        assert wf[..|wf| - 1] == w;
      }
    }
  }

  lemma {:induction false} WithoutSchemaKeyAppend(a: seq<Field>, b: seq<Field>)
    ensures WithoutSchemaKey(a + b) == WithoutSchemaKey(a) + WithoutSchemaKey(b)
    decreases |a|
  {
    if |a| == 0 {
      assert a + b == b;
    } else {
      assert (a + b)[1..] == a[1..] + b;
      WithoutSchemaKeyAppend(a[1..], b);
    }
  }

  /** Removes a top-level "$schema" member from a non-empty object schema; any other value passes unchanged. */
  function CleanParameters(params: Json): (r: Json)
    ensures params.JObj? && Truthy(params) ==> r.JObj? && Lookup(r.fields, SchemaKey).None?
    ensures params.JObj? && Truthy(params) ==> forall key :: key != SchemaKey ==> Lookup(r.fields, key) == Lookup(params.fields, key)
    ensures !(params.JObj? && Truthy(params)) ==> r == params
  {
    if params.JObj? && Truthy(params) then
      var r := JObj(WithoutSchemaKey(params.fields));
      assert forall key :: key != SchemaKey ==> Lookup(r.fields, key) == Lookup(params.fields, key) by {
        forall key | key != SchemaKey ensures Lookup(r.fields, key) == Lookup(params.fields, key) {
          WithoutSchemaKeyLookup(params.fields, key);
        }
      }
      r
    else params
  }

  /** `_convert_tools`: a single tool holding one declaration per schema, in order. */
  function ConvertTools(tools: seq<ToolSchema>): (r: seq<GTool>)
    ensures |r| == 1 && |r[0].declarations| == |tools|
    ensures forall k :: 0 <= k < |tools| ==>
      r[0].declarations[k] == Declaration(tools[k].name, tools[k].description, CleanParameters(tools[k].inputSchema))
  {
    [GTool(seq(|tools|, k requires 0 <= k < |tools| =>
      Declaration(tools[k].name, tools[k].description, CleanParameters(tools[k].inputSchema))))]
  }

  /** The generation config; absent entirely when it would be empty. */
  datatype Config = Config(systemInstruction: Option<string>, tools: Option<seq<GTool>>)

  function BuildConfig(system: string, tools: Option<seq<ToolSchema>>): (r: Option<Config>)
    ensures r.None? <==> system == "" && (tools.None? || tools.value == [])
    ensures r.Some? ==> (r.value.systemInstruction.Some? <==> system != "")
    ensures r.Some? && system != "" ==> r.value.systemInstruction == Some(system)
    ensures r.Some? ==> (r.value.tools.Some? <==> tools.Some? && tools.value != [])
  {
    var geminiTools := if tools.Some? && tools.value != [] then Some(ConvertTools(tools.value)) else None;
    var sys := if system != "" then Some(system) else None;
    if sys.None? && geminiTools.None? then None else Some(Config(sys, geminiTools))
  }

  // ----- response parsing -----

  datatype FunctionCall = FunctionCall(name: string, args: Option<Json>)
  datatype NativePart = NativePart(text: Option<string>, functionCall: Option<FunctionCall>)
  datatype Candidate = Candidate(parts: seq<NativePart>)

  predicate IsLowerHex(s: string) {
    forall k :: 0 <= k < |s| ==> ('0' <= s[k] <= '9') || ('a' <= s[k] <= 'f')
  }

  /** What `uuid.uuid4().hex` always is: 32 lower-case hex digits. */
  predicate IsUuidHex(u: string) {
    |u| == 32 && IsLowerHex(u)
  }

  function TextsOfParts(parts: seq<NativePart>): seq<string> {
    if |parts| == 0 then []
    else (if parts[0].text.Some? then [parts[0].text.value] else []) + TextsOfParts(parts[1..])
  }

  /** `dict(fc.args) if fc.args else {}`. */
  function CallArgs(args: Option<Json>): Json {
    if args.Some? && Truthy(args.value) then args.value else JObj([])
  }

  /** The function calls of the parts that carry no text, in part order. */
  function CallParts(parts: seq<NativePart>): (r: seq<FunctionCall>)
    ensures |r| <= |parts|
    ensures forall fc :: fc in r <==> exists k :: 0 <= k < |parts| && parts[k].text.None? && parts[k].functionCall == Some(fc)
  {
    if |parts| == 0 then []
    else
      var rest := CallParts(parts[1..]);
      assert forall k :: 1 <= k < |parts| ==> parts[k] == parts[1..][k - 1];
      (if parts[0].text.None? && parts[0].functionCall.Some? then [parts[0].functionCall.value] else []) + rest
  }

  /** The tool calls of the parts; call number k gets the id "toolu_" + the first 24 digits of uuid k. */
  function CallsOfParts(parts: seq<NativePart>, uuids: seq<string>): (r: seq<ToolCall>)
    requires |uuids| >= |parts|
    ensures |r| == |CallParts(parts)| && |r| <= |parts|
    ensures forall k :: 0 <= k < |r| ==>
      r[k] == ToolCall("toolu_" + Take(uuids[k], 24), CallParts(parts)[k].name, CallArgs(CallParts(parts)[k].args))
  {
    if |parts| == 0 then []
    else if parts[0].text.None? && parts[0].functionCall.Some? then
      var fc := parts[0].functionCall.value;
      [ToolCall("toolu_" + Take(uuids[0], 24), fc.name, CallArgs(fc.args))] + CallsOfParts(parts[1..], uuids[1..])
    else CallsOfParts(parts[1..], uuids)
  }

  /** `_parse_response`: only the first candidate is read. */
  function ParseResponse(candidates: seq<Candidate>, uuids: seq<string>): (r: LlmResponse)
    requires |candidates| > 0 ==> |uuids| >= |candidates[0].parts|
    requires forall k :: 0 <= k < |uuids| ==> IsUuidHex(uuids[k])
    ensures candidates == [] ==> r == LlmResponse("", [], EndTurn)
    ensures r.stopReason == ToolUse <==> r.toolCalls != []
    ensures r.stopReason == EndTurn <==> r.toolCalls == []
    ensures forall k :: 0 <= k < |r.toolCalls| ==>
      |r.toolCalls[k].id| == 30 && r.toolCalls[k].id[..6] == "toolu_" && IsLowerHex(r.toolCalls[k].id[6..])
    ensures candidates != [] ==> r.text == Join(TextsOfParts(candidates[0].parts), "\n")
    ensures candidates != [] ==> r.toolCalls == CallsOfParts(candidates[0].parts, uuids)
  {
    if candidates == [] then LlmResponse("", [], EndTurn)
    else
      var parts := candidates[0].parts;
      var calls := CallsOfParts(parts, uuids);
      assert forall k :: 0 <= k < |calls| ==> calls[k].id[6..] == Take(uuids[k], 24) && IsUuidHex(uuids[k]);
      LlmResponse(Join(TextsOfParts(parts), "\n"), calls, if calls != [] then ToolUse else EndTurn)
  }

  /** Distinct uuid prefixes give distinct call ids, which the agent loop relies on to pair results. */
  lemma CallIdsDistinct(parts: seq<NativePart>, uuids: seq<string>, i: nat, j: nat)
    requires |uuids| >= |parts|
    requires forall k :: 0 <= k < |uuids| ==> IsUuidHex(uuids[k])
    requires i < j < |CallsOfParts(parts, uuids)|
    requires Take(uuids[i], 24) != Take(uuids[j], 24)
    ensures CallsOfParts(parts, uuids)[i].id != CallsOfParts(parts, uuids)[j].id
  {
    var calls := CallsOfParts(parts, uuids);
    assert calls[i].id[6..] == Take(uuids[i], 24);
    assert calls[j].id[6..] == Take(uuids[j], 24);
  }

  /** A part with text is never read as a call: when every part has text, the turn ends. */
  lemma TextPartsEndTurn(candidates: seq<Candidate>, uuids: seq<string>)
    requires candidates != [] && |uuids| >= |candidates[0].parts|
    requires forall k :: 0 <= k < |uuids| ==> IsUuidHex(uuids[k])
    requires forall k :: 0 <= k < |candidates[0].parts| ==> candidates[0].parts[k].text.Some?
    ensures ParseResponse(candidates, uuids).toolCalls == []
    ensures ParseResponse(candidates, uuids).stopReason == EndTurn
  {
    NoCallsWithText(candidates[0].parts);
  }

  lemma {:induction false} NoCallsWithText(parts: seq<NativePart>)
    requires forall k :: 0 <= k < |parts| ==> parts[k].text.Some?
    ensures CallParts(parts) == []
  {
    if |parts| > 0 {
      assert forall k :: 0 <= k < |parts[1..]| ==> parts[1..][k] == parts[k + 1];
      NoCallsWithText(parts[1..]);
    }
  }
}
