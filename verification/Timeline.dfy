/** What the stream reducer computes, as functions on values.

    `AssistantStream` (the class) updates its fields step by step the way
    frontend/hooks/use-chat.ts does and is proved against these functions; the
    theorems about runs are about these functions.
  */
module Timeline {
  import opened Options
  import opened ChatParts

  // ---------------------------------------------------------------- tool segments

  predicate Holds(seg: Segment, id: string) {
    seg.ToolSeg?
    && ((seg.call.Some? && seg.call.value.id == id) || (seg.result.Some? && seg.result.value.id == id))
  }

  function Prefer<T>(incoming: Option<T>, existing: Option<T>): Option<T> {
    if incoming.Some? then incoming else existing
  }

  /** A call of the same kind updates the existing one, missing fields and terminal states kept;
      a call of the other kind replaces it. */
  function MergeCall(existing: ToolCall, incoming: ToolCall): ToolCall {
    var state := if existing.Terminal() then existing.state else Prefer(incoming.state, existing.state);
    match (existing, incoming)
    case (PlainCall(id, name, shown, input, _), PlainCall(_, name', shown', input', _)) =>
      PlainCall(id, Prefer(name', name), Prefer(shown', shown), Prefer(input', input), state)
    case (McpCall(id, name, server, input, _), McpCall(_, name', server', input', _)) =>
      McpCall(id, Prefer(name', name), Prefer(server', server), Prefer(input', input), state)
    case _ => incoming
  }

  function SetCallState(call: ToolCall, result: Option<ToolResult>): ToolCall {
    if result.None? then call
    else call.(state := Some(if result.value.isError then Error else Done))
  }

  datatype ToolPatch = PutCall(call: ToolCall) | PutResult(result: ToolResult)
  {
    function Id(): string {
      if PutCall? then call.id else result.id
    }

    function Opened(): Segment {
      if PutCall? then ToolSeg(Some(call), None) else ToolSeg(None, Some(result))
    }

    function Patched(seg: Segment): Segment
      requires seg.ToolSeg?
    {
      match this
      case PutCall(c) =>
        seg.(call := Some(if seg.call.Some? then MergeCall(seg.call.value, c) else SetCallState(c, seg.result)))
      case PutResult(r) =>
        ToolSeg(if seg.call.Some? then Some(SetCallState(seg.call.value, Some(r))) else None, Some(r))
    }
  }

  /** Patches the first segment that holds the id, or opens a segment at the end. */
  function Upsert(segs: seq<Segment>, p: ToolPatch): seq<Segment> {
    if segs == [] then [p.Opened()]
    else if Holds(segs[0], p.Id()) then [p.Patched(segs[0])] + segs[1..]
    else [segs[0]] + Upsert(segs[1..], p)
  }

  /** Marks a waiting ask_user call pending, if the id has such a call and no result yet. */
  function MarkPending(segs: seq<Segment>, id: string): seq<Segment> {
    if segs == [] then []
    else if Holds(segs[0], id) then [if Askable(segs[0]) then Awaiting(segs[0]) else segs[0]] + segs[1..]
    else [segs[0]] + MarkPending(segs[1..], id)
  }

  predicate Askable(seg: Segment) {
    seg.ToolSeg? && seg.call.Some? && seg.result.None? && seg.call.value.name == Some("ask_user")
  }

  function Awaiting(seg: Segment): Segment
    requires Askable(seg)
  {
    seg.(call := Some(seg.call.value.(state := Some(Pending))))
  }

  predicate HasTool(segs: seq<Segment>, id: string) {
    exists seg :: seg in segs && Holds(seg, id)
  }

  // ---------------------------------------------------------------- tasks and text

  predicate IsTask(seg: Segment, t: TaskType) {
    seg.TaskSeg? && seg.task.taskType == t
  }

  predicate HasTask(segs: seq<Segment>, t: TaskType) {
    exists seg :: seg in segs && IsTask(seg, t)
  }

  function Retask(task: Task, state: TaskState, info: Option<Info>): Task {
    Task(task.taskType, state, Prefer(info, task.info))
  }

  /** Updates the last task of the type; no effect when there is none. */
  function TouchLatest(segs: seq<Segment>, t: TaskType, state: TaskState, info: Option<Info>): seq<Segment> {
    if segs == [] then []
    else
      var n := |segs| - 1;
      if IsTask(segs[n], t) then segs[..n] + [TaskSeg(Retask(segs[n].task, state, info))]
      else TouchLatest(segs[..n], t, state, info) + [segs[n]]
  }

  function EnsureTask(segs: seq<Segment>, t: TaskType, state: TaskState, info: Option<Info>): seq<Segment> {
    if HasTask(segs, t) then TouchLatest(segs, t, state, info) else segs + [TaskSeg(Task(t, state, info))]
  }

  predicate EndsInText(segs: seq<Segment>) {
    segs != [] && segs[|segs| - 1].TextSeg?
  }

  function AppendText(segs: seq<Segment>, delta: string): seq<Segment> {
    if EndsInText(segs) then segs[..|segs| - 1] + [TextSeg(segs[|segs| - 1].text + delta)]
    else segs + [TextSeg(delta)]
  }

  // ---------------------------------------------------------------- reasoning

  datatype ThoughtPatch = Grow(text: string) | Close(text: string, duration: Option<int>)

  predicate IsThought(seg: Segment, k: int) {
    seg.ReasoningSeg? && seg.index == k
  }

  function Rethink(seg: Segment, p: ThoughtPatch): Segment
    requires seg.ReasoningSeg?
  {
    match p
    case Grow(text) => seg.(text := text)
    case Close(text, duration) => seg.(text := text, duration := duration, streaming := false)
  }

  /** Patches the first reasoning segment of index `k`. */
  function PatchThought(segs: seq<Segment>, k: int, p: ThoughtPatch): seq<Segment> {
    if segs == [] then []
    else if IsThought(segs[0], k) then [Rethink(segs[0], p)] + segs[1..]
    else [segs[0]] + PatchThought(segs[1..], k, p)
  }

  function OpenThought(s: State, now: int): State {
    s.(segments := s.segments + [ReasoningSeg(|s.blocks|, "", true, now, None)],
       blocks := s.blocks + [Block("", now, None, true)],
       current := |s.blocks|)
  }

  predicate ThoughtOpen(s: State) {
    0 <= s.current < |s.blocks|
  }

  function Rethought(b: Block, p: ThoughtPatch): Block {
    match p
    case Grow(text) => b.(text := text)
    case Close(text, duration) => b.(text := text, duration := duration, streaming := false)
  }

  /** Patches the open block and its segment alike. */
  function EditThought(s: State, p: ThoughtPatch): State
    requires ThoughtOpen(s)
  {
    s.(blocks := s.blocks[s.current := Rethought(s.blocks[s.current], p)],
       segments := PatchThought(s.segments, s.current, p))
  }

  function Growth(s: State, delta: string): ThoughtPatch
    requires ThoughtOpen(s)
  {
    Grow(s.blocks[s.current].text + delta)
  }

  function Closure(s: State, now: int): ThoughtPatch
    requires ThoughtOpen(s)
  {
    Close(s.blocks[s.current].text, Some(now - s.blocks[s.current].startTime))
  }

  function GrowThought(s: State, delta: string): State
    requires ThoughtOpen(s)
  {
    EditThought(s, Growth(s, delta))
  }

  function EndThought(s: State, now: int): State
    requires ThoughtOpen(s)
  {
    EditThought(s, Closure(s, now))
  }

  // ---------------------------------------------------------------- sources

  function KnownIds(sources: seq<Source>): set<string> {
    set s | s in sources && s.sourceId.Some? && s.sourceId.value != "" :: s.sourceId.value
  }

  /** Cited sources not known yet, in order; a URL citation without a URL only reserves its id. */
  function Cited(known: set<string>, citations: seq<Citation>): seq<Source>
    decreases |citations|
  {
    if citations == [] then []
    else
      var c := citations[0];
      if c.id in known then Cited(known, citations[1..])
      else AsSource(c) + Cited(known + {c.id}, citations[1..])
  }

  function AsSource(c: Citation): seq<Source> {
    match c
    case UrlCitation(id, url, body) => if url == "" then [] else [UrlSource(Some(id), url, body)]
    case DocumentCitation(id, body) => [DocumentSource(Some(id), body)]
  }

  // ---------------------------------------------------------------- the event reducer

  /** All items `f` finds in the segments, in timeline order. */
  function Collect<T>(f: Segment -> seq<T>, segs: seq<Segment>): seq<T> {
    if segs == [] then [] else f(segs[0]) + Collect(f, segs[1..])
  }

  function CallOf(seg: Segment): seq<ToolCall> {
    if seg.ToolSeg? && seg.call.Some? then [seg.call.value] else []
  }

  predicate AllTerminal(calls: seq<ToolCall>) {
    forall c :: c in calls ==> c.Terminal()
  }

  function StartedCall(e: StreamEvent): ToolCall
    requires e.CallEvent?
  {
    PlainCall(e.id, e.name, e.displayName, e.input, Some(Running))
  }

  function BeginAnswer(s: State): State {
    if s.tasks.generating != TaskPending then s
    else
      var s1 := if s.tasks.rag != TaskRunning then s
                else s.(tasks := s.tasks.(rag := TaskCompleted),
                        segments := TouchLatest(s.segments, Rag, TaskCompleted, None));
      s1.(tasks := s1.tasks.(generating := TaskRunning),
          segments := s1.segments + [TaskSeg(Task(Generating, TaskRunning, None))])
  }

  function AddCall(s: State, call: ToolCall): State {
    var segs := Upsert(s.segments, PutCall(call));
    s.(segments := segs,
       tasks := s.tasks.(toolCalling := TaskRunning, toolCallCount := Some(|Collect(CallOf, segs)|)))
  }

  function AddResult(s: State, result: ToolResult, citations: seq<Citation>): State {
    var segs := Upsert(s.segments, PutResult(result));
    var settled := AllTerminal(Collect(CallOf, segs)) && s.tasks.toolCalling == TaskRunning;
    s.(sources := s.sources + Cited(KnownIds(s.sources), citations),
       segments := segs,
       tasks := if settled then s.tasks.(toolCalling := TaskCompleted) else s.tasks)
  }

  function Apply(s: State, e: StreamEvent, now: int): State {
    match e
    case RagStart =>
      s.(tasks := s.tasks.(rag := TaskRunning),
         segments := s.segments + [TaskSeg(Task(Rag, TaskRunning, None))])
    case ReasoningStart => OpenThought(s, now)
    case ReasoningDelta(delta) => GrowThought(if ThoughtOpen(s) then s else OpenThought(s, now), delta)
    case ReasoningEnd => if ThoughtOpen(s) then EndThought(s, now) else s
    case ContentDelta(delta) =>
      var s1 := BeginAnswer(s);
      s1.(segments := AppendText(s1.segments, delta))
    case RagContext(sources, info) =>
      s.(sources := sources,
         tasks := s.tasks.(rag := TaskCompleted, ragSourceCount := Some(|sources|)),
         segments := EnsureTask(s.segments, Rag, TaskCompleted, Some(Structured(info))))
    case CompressionStart(info) =>
      s.(tasks := s.tasks.(compression := TaskRunning),
         segments := s.segments + [TaskSeg(Task(Compression, TaskRunning, info))])
    case CompressionEnd(info) =>
      s.(tasks := s.tasks.(compression := TaskCompleted),
         segments := EnsureTask(s.segments, Compression, TaskCompleted, info))
    case CallEvent(_, _, _, _) => AddCall(s, StartedCall(e))
    case ResultEvent(result, citations) => AddResult(s, result, citations)
    case MediaEvent(body, displayed) => if displayed then s.(segments := s.segments + [MediaSeg(body)]) else s
    case OutputTruncated => s.(segments := s.segments + [TruncatedSeg])
    case IterationCapReached(content) =>
      s.(segments := s.segments + [IterationCapSeg] + (if content == "" then [] else [TextSeg(content)]))
    case OtherEvent => s
  }

  // ---------------------------------------------------------------- finalisation and other steps

  function FinalBlock(b: Block, now: int): Block {
    if b.streaming then b.(duration := Some(now - b.startTime), streaming := false) else b
  }

  function FinalBlocks(blocks: seq<Block>, now: int): seq<Block> {
    seq(|blocks|, k requires 0 <= k < |blocks| => FinalBlock(blocks[k], now))
  }

  /** Closes the reasoning segments of the first `n` blocks, in block order. */
  function CloseThoughts(segs: seq<Segment>, blocks: seq<Block>, n: nat): seq<Segment>
    requires n <= |blocks|
  {
    if n == 0 then segs
    else PatchThought(CloseThoughts(segs, blocks, n - 1), n - 1, Close(blocks[n - 1].text, blocks[n - 1].duration))
  }

  function Settle(seg: Segment): Segment {
    if seg.ToolSeg? && seg.call.Some? && seg.call.value.state == Some(Running) then
      seg.(call := Some(seg.call.value.(state := Some(Done))))
    else if seg.TaskSeg? && seg.task.state == TaskRunning then
      TaskSeg(seg.task.(state := TaskCompleted))
    else seg
  }

  function SettleAll(segs: seq<Segment>): seq<Segment> {
    seq(|segs|, i requires 0 <= i < |segs| => Settle(segs[i]))
  }

  function SettleTask(t: TaskState): TaskState {
    if t == TaskRunning then TaskCompleted else t
  }

  function SettleTable(t: TaskTable): TaskTable {
    t.(rag := SettleTask(t.rag), generating := SettleTask(t.generating),
       toolCalling := SettleTask(t.toolCalling), compression := SettleTask(t.compression))
  }

  /** `finalizeStreamingState`, with one clock reading for the whole step. */
  function Finalize(s: State, now: int): State {
    var blocks := FinalBlocks(s.blocks, now);
    State(SettleAll(CloseThoughts(s.segments, blocks, |blocks|)), blocks, -1, s.sources, SettleTable(s.tasks))
  }

  predicate Progress(seg: Segment) {
    match seg
    case TextSeg(text) => !Blank(text)
    case ToolSeg(call, result) => call.Some? || result.Some?
    case InstructionSeg(_) => false
    case _ => true
  }

  /** The characters `String.prototype.trim` removes. */
  const WHITESPACE := " \t\n\r\U{000B}\U{000C}\U{00A0}\U{1680}\U{2000}\U{2001}\U{2002}\U{2003}\U{2004}\U{2005}\U{2006}\U{2007}\U{2008}\U{2009}\U{200A}\U{2028}\U{2029}\U{202F}\U{205F}\U{3000}\U{FEFF}"

  predicate Blank(text: string) {
    forall c :: c in text ==> c in WHITESPACE
  }

  /** `hasRenderableStreamingProgress`. */
  predicate HasProgress(s: State) {
    (exists seg :: seg in s.segments && Progress(seg))
    || s.sources != []
    || s.tasks.rag != TaskPending || s.tasks.generating != TaskPending
    || s.tasks.toolCalling != TaskPending || s.tasks.compression != TaskPending
  }

  function FailCompression(s: State): State {
    if s.tasks.compression != TaskRunning then s
    else s.(tasks := s.tasks.(compression := TaskError),
            segments := TouchLatest(s.segments, Compression, TaskError, None))
  }

  /** `markAssistantError` on the session state: a running compression fails, and whatever progress
      there is is finalised, through a copy of the state that shares everything but `current`. */
  function Fail(s: State, now: int): State {
    var s1 := FailCompression(s);
    if HasProgress(s1) then Finalize(s1, now).(current := s1.current) else s1
  }

  /** `hydratePendingAskUserSegment`. */
  function Hydrate(s: State, id: string, input: Payload): State {
    var call := PlainCall(id, Some("ask_user"), Some("ask_user"), Some(input), Some(Pending));
    var segs := if HasTool(s.segments, id) then s.segments else s.segments + [ToolSeg(Some(call), None)];
    s.(segments := MarkPending(segs, id), tasks := s.tasks.(toolCalling := TaskRunning))
  }

  /** Everything that changes a session state while its run is alive. */
  datatype Step =
    | Event(event: StreamEvent)
    | Finish                                   // message_end, run_end or a local stop
    | Failure                                  // error event
    | Instruct(content: string)                // accepted run input, trimmed
    | AskUser(id: string)                      // run_status waiting for an answer
    | Rehydrate(id: string, input: Payload)    // reconnect to a waiting run

  function Do(s: State, step: Step, now: int): State {
    match step
    case Event(e) => Apply(s, e, now)
    case Finish => Finalize(s, now)
    case Failure => Fail(s, now)
    case Instruct(content) => if content == "" then s else s.(segments := s.segments + [InstructionSeg(content)])
    case AskUser(id) => s.(segments := MarkPending(s.segments, id))
    case Rehydrate(id, input) => Hydrate(s, id, input)
  }

  datatype Timed = Timed(step: Step, now: int)

  function Run(s: State, steps: seq<Timed>): State {
    if steps == [] then s
    else
      var n := |steps| - 1;
      Do(Run(s, steps[..n]), steps[n].step, steps[n].now)
  }

  // ---------------------------------------------------------------- rendering and rebuilding

  function ShownTask(task: Task, streaming: bool): Task {
    if !streaming && task.state != TaskError then task.(state := TaskCompleted) else task
  }

  function PartsOf(seg: Segment, streaming: bool): seq<Part> {
    match seg
    case TextSeg(text) => if text == "" then [] else [TextPart(text, streaming)]
    case ReasoningSeg(_, text, open, _, duration) => [ReasoningPart(text, open, duration)]
    case TaskSeg(task) => [TaskPart(ShownTask(task, streaming))]
    case ToolSeg(call, result) =>
      (if call.Some? then [CallPart(call.value)] else []) + (if result.Some? then [ResultPart(result.value)] else [])
    case MediaSeg(body) => [MediaPart(body)]
    case TruncatedSeg => [TruncatedPart]
    case IterationCapSeg => [IterationCapPart]
    case InstructionSeg(content) => if content == "" then [] else [InstructionPart(content)]
  }

  function Render(segs: seq<Segment>, streaming: bool): seq<Part> {
    if segs == [] then [] else PartsOf(segs[0], streaming) + Render(segs[1..], streaming)
  }

  function Footer(sources: seq<Source>): seq<Part> {
    seq(|sources|, i requires 0 <= i < |sources| => SourcePart(sources[i]))
  }

  /** `buildMessageParts`: the segments in order, then the sources once streaming is over. */
  function Build(s: State, streaming: bool): seq<Part> {
    Render(s.segments, streaming) + (if streaming then [] else Footer(s.sources))
  }

  function AddPart(s: State, part: Part, now: int): State {
    match part
    case TextPart(text, _) => s.(segments := s.segments + [TextSeg(text)])
    case ReasoningPart(text, open, duration) =>
      s.(segments := s.segments + [ReasoningSeg(|s.blocks|, text, open, now, duration)],
         blocks := s.blocks + [Block(text, now, duration, open)],
         current := if open then |s.blocks| else -1)
    case InstructionPart(content) => s.(segments := s.segments + [InstructionSeg(content)])
    case TaskPart(task) =>
      s.(segments := s.segments + [TaskSeg(task)],
         tasks := match task.taskType
                  case Rag => s.tasks.(rag := task.state,
                                       ragSourceCount := if task.info.Some? && task.info.value.Number?
                                                         then Some(task.info.value.n) else None)
                  case Generating => s.tasks.(generating := task.state)
                  case Compression => s.tasks.(compression := task.state)
                  case Thinking => s.tasks)
    case CallPart(call) =>
      s.(segments := Upsert(s.segments, PutCall(call)),
         tasks := s.tasks.(toolCalling := if call.state == Some(Running) then TaskRunning else TaskCompleted))
    case ResultPart(result) => s.(segments := Upsert(s.segments, PutResult(result)))
    case SourcePart(source) => s.(sources := s.sources + [source])
    case MediaPart(body) => s.(segments := s.segments + [MediaSeg(body)])
    case TruncatedPart => s.(segments := s.segments + [TruncatedSeg])
    case IterationCapPart => s.(segments := s.segments + [IterationCapSeg])
    case OtherPart(_) => s
  }

  function Load(parts: seq<Part>, now: int): State {
    if parts == [] then EMPTY_STATE
    else
      var n := |parts| - 1;
      AddPart(Load(parts[..n], now), parts[n], now)
  }

  /** `createAssistantStreamStateFromParts`. */
  function FromParts(parts: seq<Part>, now: int): State {
    var s := Load(parts, now);
    var calls := Collect(CallOf, s.segments);
    if calls != [] && AllTerminal(calls) then s.(tasks := s.tasks.(toolCalling := TaskCompleted)) else s
  }
}
