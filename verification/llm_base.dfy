/**
 * The canonical conversation shapes every provider adapter reads and
 * produces: tool calls, normalised responses, content blocks, messages and
 * tool schemas (ezagent/llm/base.py and the dicts the agent loop builds).
 */
module Llm {
  import opened Wrappers
  import opened Json

  /** One tool invocation requested by the model. */
  datatype ToolCall = ToolCall(id: string, name: string, input: Json)

  /** A normalised model turn. */
  datatype LlmResponse = LlmResponse(text: string, toolCalls: seq<ToolCall>, stopReason: string)

  /**
   * One content block of a message. A tool-result block may lack its
   * `tool_use_id` or carry an extra `name`; any other block type is `OtherBlock`.
   */
  datatype Block =
    | TextBlock(text: string)
    | ToolUseBlock(id: string, name: string, input: Json)
    | ToolResultBlock(toolUseId: Option<string>, resultName: Option<string>, content: string)
    | OtherBlock(kind: string)

  /** A message's content: a bare string or a list of blocks. */
  datatype Content = Plain(text: string) | Blocks(blocks: seq<Block>)

  datatype Message = Message(role: string, content: Content)

  /** A tool schema in the shape the agent hands to providers. */
  datatype ToolSchema = ToolSchema(name: string, description: string, inputSchema: Json)

  /** The `provider`/`stop_reason` value used when a turn ends without tool calls. */
  const EndTurn := "end_turn"
  const ToolUse := "tool_use"
}
