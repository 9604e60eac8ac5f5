/**
 * The message shapes exchanged with the agent service and the display shape
 * handed to the user interface (src/types/letta.ts).
 */
module LettaTypes {
  import opened Wrappers

  /** The arguments object of a tool call; each value is kept as its JSON text. */
  type Arguments = map<string, string>

  /** The details of one tool invocation the agent asks for. */
  datatype ToolCall = ToolCall(toolCallId: string, toolName: string, arguments: Arguments)

  datatype ToolStatus = Success | Error

  /** The `message_type` values of the declared union. */
  const DeclaredKinds: set<string> := {
    "user_message", "reasoning_message", "assistant_message",
    "approval_request_message", "tool_return_message", "usage_statistics"}

  /** A `message_type` outside the declared union. */
  type OtherKind = k: string | k !in DeclaredKinds witness "system_message"

  /**
   * One message of the agent's stream or history. The first six variants are the
   * declared union; `OtherMessage` stands for any message whose `message_type`
   * is none of them, which the service may still deliver at run time.
   */
  datatype LettaMessage =
    | UserMessage(content: string)
    | ReasoningMessage(content: string)
    | AssistantMessage(content: string)
    | ApprovalRequestMessage(toolCall: ToolCall)
    | ToolReturnMessage(toolCallId: string, toolName: string, status: ToolStatus, result: string)
    | UsageStatistics(inputTokens: Option<nat>, outputTokens: Option<nat>, totalTokens: Option<nat>)
    | OtherMessage(messageType: OtherKind)

  /** The four kinds that belong to the agent's side of a turn. */
  predicate IsAssistantSide(m: LettaMessage)
  {
    m.AssistantMessage? || m.ReasoningMessage? || m.ApprovalRequestMessage? || m.ToolReturnMessage?
  }

  /** Kinds that neither start a user turn nor contribute to an assistant turn. */
  predicate IsSkipped(m: LettaMessage)
  {
    !m.UserMessage? && !IsAssistantSide(m)
  }

  datatype Role = User | Assistant | System

  /** A grouped unit of the transcript as the user interface renders it. */
  datatype DisplayMessage = DisplayMessage(
    role: Role,
    content: string,
    reasoning: Option<seq<string>>,
    toolCalls: Option<seq<ToolCall>>,
    toolReturns: Option<seq<LettaMessage>>)

  /** The display rule for a list field: an empty list is shown as absent. */
  function Present<T>(s: seq<T>): (r: Option<seq<T>>)
    ensures r.None? <==> s == []
    ensures r.Some? ==> r.value == s
  {
    if |s| > 0 then Some(s) else None
  }
}
