/** The Anthropic adapter: request assembly and response parsing (ezagent/llm/anthropic.py). */
module AnthropicProvider {
  import opened Wrappers
  import opened Json
  import opened Strings
  import opened Llm

  const DefaultModel := "claude-sonnet-4-20250514"
  const MaxTokens := 4096

  /** The keyword arguments of `messages.create`: optional ones are absent, not empty. */
  datatype Request = Request(
    model: string,
    maxTokens: int,
    messages: seq<Message>,
    system: Option<string>,
    tools: Option<seq<ToolSchema>>)

  /** Assembles the request: `system` only when non-empty, `tools` only when a non-empty list was given. */
  function BuildRequest(model: string, messages: seq<Message>, system: string, tools: Option<seq<ToolSchema>>): (r: Request)
    ensures r.model == model && r.maxTokens == 4096 && r.messages == messages
    ensures r.system.Some? <==> system != ""
    ensures r.system.Some? ==> r.system.value == system
    ensures r.tools.Some? <==> tools.Some? && tools.value != []
    ensures r.tools.Some? ==> r.tools == tools
  {
    Request(
      model, MaxTokens, messages,
      if system != "" then Some(system) else None,
      if tools.Some? && tools.value != [] then tools else None)
  }

  /** A content block of the SDK's response. */
  datatype NativeBlock =
    | NText(text: string)
    | NToolUse(id: string, name: string, input: Json)
    | NOther(kind: string)

  function TextsOf(content: seq<NativeBlock>): (r: seq<string>)
    ensures |r| <= |content|
  {
    if |content| == 0 then []
    else (if content[0].NText? then [content[0].text] else []) + TextsOf(content[1..])
  }

  function CallsOf(content: seq<NativeBlock>): (r: seq<ToolCall>)
    ensures |r| <= |content|
    ensures forall tc :: tc in r <==> NToolUse(tc.id, tc.name, tc.input) in content
  {
    if |content| == 0 then []
    else
      var rest := CallsOf(content[1..]);
      assert forall b :: b in content <==> b == content[0] || b in content[1..];
      match content[0]
      case NToolUse(id, name, input) => [ToolCall(id, name, input)] + rest
      case _ => rest
  }

  /** `response.stop_reason or "end_turn"`. */
  function StopReasonOf(stopReason: Option<string>): (r: string)
    ensures r != ""
    ensures stopReason.Some? && stopReason.value != "" ==> r == stopReason.value
  {
    if stopReason.Some? && stopReason.value != "" then stopReason.value else EndTurn
  }

  /** Normalises the SDK response: texts joined by newlines, tool-use blocks in order, other blocks ignored. */
  function ParseResponse(content: seq<NativeBlock>, stopReason: Option<string>): (r: LlmResponse)
    ensures forall tc :: tc in r.toolCalls <==> NToolUse(tc.id, tc.name, tc.input) in content
    ensures r.text == Join(TextsOf(content), "\n")
    ensures r.stopReason == StopReasonOf(stopReason)
  {
    LlmResponse(Join(TextsOf(content), "\n"), CallsOf(content), StopReasonOf(stopReason))
  }

  /** Parsing distributes over concatenation of content: order is preserved. */
  lemma {:induction false} CallsOfAppend(a: seq<NativeBlock>, b: seq<NativeBlock>)
    ensures CallsOf(a + b) == CallsOf(a) + CallsOf(b)
    ensures TextsOf(a + b) == TextsOf(a) + TextsOf(b)
    decreases |a|
  {
    if |a| > 0 {
      assert (a + b)[1..] == a[1..] + b;
      CallsOfAppend(a[1..], b);
    } else {
      assert a + b == b;
    }
  }

  lemma {:induction false} JoinAppend(x: seq<string>, y: seq<string>, sep: string)
    requires |x| > 0 && |y| > 0
    ensures Join(x + y, sep) == Join(x, sep) + sep + Join(y, sep)
    decreases |x|
  {
    if |x| == 1 {
      assert (x + y)[1..] == y;
    } else {
      assert (x + y)[1..] == x[1..] + y;
      JoinAppend(x[1..], y, sep);
    }
  }

  /**
   * The text of a response made of two parts that both carry text is the two
   * texts joined by one newline; tool calls of the parts are concatenated.
   */
  lemma ParseResponseAppend(a: seq<NativeBlock>, b: seq<NativeBlock>, stop: Option<string>)
    requires TextsOf(a) != [] && TextsOf(b) != []
    ensures ParseResponse(a + b, stop).text == ParseResponse(a, stop).text + "\n" + ParseResponse(b, stop).text
    ensures ParseResponse(a + b, stop).toolCalls == ParseResponse(a, stop).toolCalls + ParseResponse(b, stop).toolCalls
  {
    CallsOfAppend(a, b);
    JoinAppend(TextsOf(a), TextsOf(b), "\n");
  }
}
