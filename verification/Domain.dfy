/** The values a Run is made of: tool calls, transcript messages, token usage, run state. */
module Domain {

  datatype Option<+T> = None | Some(value: T)

  datatype Role = System | User | Assistant | Tool

  /** `arguments` is the JSON text of the argument object. */
  datatype ToolCall = ToolCall(id: string, name: string, arguments: string)

  datatype FollowUpCall = FollowUpCall(toolName: string, arguments: string)

  datatype ToolResult = ToolResult(content: string, isError: bool, followUp: Option<FollowUpCall>)

  datatype Message = Message(
    role: Role,
    content: string,
    toolCalls: seq<ToolCall>,
    toolCallId: Option<string>,
    reasoning: string)

  datatype TokenUsage = TokenUsage(input: nat, output: nat, cached: nat, reasoning: nat) {
    predicate Recorded() { input + output > 0 }

    function Add(other: TokenUsage): TokenUsage {
      TokenUsage(input + other.input, output + other.output,
                 cached + other.cached, reasoning + other.reasoning)
    }
  }

  const NO_USAGE := TokenUsage(0, 0, 0, 0)

  /** Billed total over every model call, and the size of the latest recorded prompt. */
  datatype RunUsage = RunUsage(cumulative: TokenUsage, contextTokens: nat) {
    function Record(call: TokenUsage): RunUsage {
      RunUsage(cumulative.Add(call), if call.Recorded() then call.input else contextTokens)
    }
  }

  datatype ModelResponse = ModelResponse(
    content: string, toolCalls: seq<ToolCall>, usage: TokenUsage, reasoning: string)

  /** `messages[..throughIndex]` are represented by `summary` in requests. */
  datatype CompactionState = CompactionState(summary: string, throughIndex: nat)

  /** Skill instructions injected into the system prompt, and the names they go by. */
  datatype Skills = Skills(runExtra: seq<string>, selectedSkills: seq<string>)

  const NO_SKILLS := Skills([], [])

  datatype RunState = RunState(
    messages: seq<Message>,
    completedModelCalls: nat,
    usage: RunUsage,
    compaction: Option<CompactionState>,
    skills: Skills)

  const EMPTY_STATE := RunState([], 0, RunUsage(NO_USAGE, 0), None, NO_SKILLS)

  datatype RunStatus =
    | Running | WaitingForApproval | PausedLimit | Completed | Failed | Cancelled
    | WaitingForInput

  datatype ToolDecision = Allow | Deny | NeedsApproval

  datatype Verdict = Approve | Reject(reason: Option<string>)
}
