/** Message parts, timeline segments and stream events of an assistant message.

    Parts are what a message shows and what the backend stores; segments are the
    richer, mutable form the stream reducer folds events into. Values the reducer
    only carries along (tool output, task info, source bodies) are opaque `Payload`s.
  */
module ChatParts {
  import opened Options

  /** A JSON value nobody looks into. */
  type Payload = string

  function InputOr(input: Option<Payload>): Payload {
    if input.Some? then input.value else "{}"
  }

  datatype CallState = Pending | Running | Done | Error

  /** A plain or an MCP tool call. Every field but the id may be missing at run time. */
  datatype ToolCall =
    | PlainCall(id: string, name: Option<string>, displayName: Option<string>,
                input: Option<Payload>, state: Option<CallState>)
    | McpCall(id: string, name: Option<string>, serverName: Option<string>,
              input: Option<Payload>, state: Option<CallState>)
  {
    /** Done and failed calls must not be revived by a duplicate `tool_call`. */
    predicate Terminal() {
      state == Some(Done) || state == Some(Error)
    }
  }

  datatype ResultKind = PlainResult | McpResult

  datatype ToolResult = ToolResult(kind: ResultKind, id: string, body: Payload, isError: bool)

  datatype TaskType = Rag | Thinking | Generating | Compression

  datatype TaskState = TaskPending | TaskRunning | TaskCompleted | TaskError

  datatype Info = Number(n: int) | Structured(body: Payload)

  datatype Task = Task(taskType: TaskType, state: TaskState, info: Option<Info>)

  datatype Source =
    | DocumentSource(sourceId: Option<string>, body: Payload)
    | UrlSource(sourceId: Option<string>, url: string, body: Payload)

  /** A citation that `extractToolCitationSources` found in a tool output. */
  datatype Citation =
    | UrlCitation(id: string, url: string, body: Payload)
    | DocumentCitation(id: string, body: Payload)

  /** `OtherPart` stands for the kinds a stream state has no segment for (files, images, stop marks). */
  datatype Part =
    | TextPart(text: string, streaming: bool)
    | ReasoningPart(text: string, streaming: bool, duration: Option<int>)
    | InstructionPart(content: string)
    | TaskPart(task: Task)
    | CallPart(call: ToolCall)
    | ResultPart(result: ToolResult)
    | SourcePart(source: Source)
    | MediaPart(body: Payload)
    | TruncatedPart
    | IterationCapPart
    | OtherPart(body: Payload)

  datatype Segment =
    | TextSeg(text: string)
    | ReasoningSeg(index: nat, text: string, streaming: bool, startTime: int, duration: Option<int>)
    | TaskSeg(task: Task)
    | ToolSeg(call: Option<ToolCall>, result: Option<ToolResult>)
    | MediaSeg(body: Payload)
    | TruncatedSeg
    | IterationCapSeg
    | InstructionSeg(content: string)

  datatype Block = Block(text: string, startTime: int, duration: Option<int>, streaming: bool)

  datatype TaskTable = TaskTable(
    rag: TaskState, generating: TaskState, toolCalling: TaskState, compression: TaskState,
    ragSourceCount: Option<int>, toolCallCount: Option<nat>)

  /** `current` is the index of the open reasoning block, -1 for none. */
  datatype State = State(
    segments: seq<Segment>, blocks: seq<Block>, current: int,
    sources: seq<Source>, tasks: TaskTable)

  /** Events of `applyAssistantStreamEvent`. The opaque helpers have run already: a tool result
      carries the citations of its output, a media result whether the body shows it. */
  datatype StreamEvent =
    | RagStart
    | ReasoningStart
    | ReasoningDelta(delta: string)
    | ReasoningEnd
    | ContentDelta(delta: string)
    | RagContext(sources: seq<Source>, found: Payload)
    | CompressionStart(info: Option<Info>)
    | CompressionEnd(info: Option<Info>)
    | CallEvent(id: string, name: Option<string>, displayName: Option<string>, input: Option<Payload>)
    | ResultEvent(result: ToolResult, citations: seq<Citation>)
    | MediaEvent(body: Payload, displayed: bool)
    | OutputTruncated
    | IterationCapReached(content: string)
    | OtherEvent

  const NO_TASKS := TaskTable(TaskPending, TaskPending, TaskPending, TaskPending, None, None)

  /** `createAssistantStreamState`. */
  const EMPTY_STATE := State([], [], -1, [], NO_TASKS)
}
