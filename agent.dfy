/** The conversation and tool-call records exchanged with an LLM provider. */
module Agent {
  import opened Values

  const RoleSystem := "system"
  const RoleUser := "user"
  const RoleAssistant := "assistant"

  /** One conversation turn. */
  datatype Message = Message(role: string, content: string)

  /** A tool invocation requested by the model. */
  datatype ToolCall = ToolCall(id: string, name: string, input: Input)

  /** One provider answer. */
  datatype Response = Response(
    content: string,
    toolCalls: seq<ToolCall>,
    stopReason: string,
    tokensIn: int,
    tokensOut: int)

  /** The outcome of one tool execution, as fed back to the model. */
  datatype ToolResult = ToolResult(toolCallId: string, content: string, isError: bool)
}
