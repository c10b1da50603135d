/** What each step of the reducer shows: which segment it reaches, and what that segment says afterwards.
    These hold in every state, also in one rebuilt from stored parts.
  */
module StreamEffects {
  import opened Options
  import opened ChatParts
  import opened Timeline
  import opened TimelineFacts
  import opened StreamInvariants
  import opened StreamTheorems

  // ---------------------------------------------------------------- calls and results

  /** Segment `k` changes, and no other. */
  predicate OnlyAt(before: seq<Segment>, after: seq<Segment>, k: nat) {
    |before| == |after| && forall i :: 0 <= i < |before| && i != k ==> after[i] == before[i]
  }

  /** A value of the event, or the earlier one where the event has none. */
  predicate Taken<T(==)>(value: Option<T>, incoming: Option<T>, earlier: Option<T>) {
    if incoming.Some? then value == incoming else value == earlier
  }

  /** A known call takes over what the new one says and keeps the rest; a terminal one stays terminal. One
      of the other kind is replaced. */
  predicate CallContinues(c: ToolCall, known: ToolCall, call: ToolCall) {
    match (known, call)
    case (PlainCall(id, name, shown, input, state), PlainCall(_, name', shown', input', state')) =>
      && c.PlainCall? && c.id == id && Taken(c.name, name', name) && Taken(c.displayName, shown', shown)
      && Taken(c.input, input', input)
      && (if state == Some(Done) || state == Some(Error) then c.state == state else Taken(c.state, state', state))
    case (McpCall(id, name, server, input, state), McpCall(_, name', server', input', state')) =>
      && c.McpCall? && c.id == id && Taken(c.name, name', name) && Taken(c.serverName, server', server)
      && Taken(c.input, input', input)
      && (if state == Some(Done) || state == Some(Error) then c.state == state else Taken(c.state, state', state))
    case _ => c == call
  }

  /** The call stands in the first segment of its id, or in a new one at the end; no other segment changes. */
  predicate CallShown(before: seq<Segment>, after: seq<Segment>, call: ToolCall) {
    var k := FindTool(before, call.id);
    if k == |before| then after == before + [ToolSeg(Some(call), None)]
    else
      && OnlyAt(before, after, k) && after[k].ToolSeg? && after[k].call.Some? && after[k].result == before[k].result
      && if before[k].call.Some? then CallContinues(after[k].call.value, before[k].call.value, call)
         else after[k].call.value == call.(state := Some(if before[k].result.value.isError then Error else Done))
  }

  lemma PutIsShown(segs: seq<Segment>, call: ToolCall)
    ensures CallShown(segs, Upsert(segs, PutCall(call)), call)
  {
    UpsertByIndex(segs, PutCall(call));
  }

  /** The call an event announces is shown, as a running one. */
  lemma CallIsShown(s: State, id: string, name: Option<string>, shown: Option<string>, input: Option<Payload>, now: int)
    ensures CallShown(s.segments, Apply(s, CallEvent(id, name, shown, input), now).segments,
                      PlainCall(id, name, shown, input, Some(Running)))
  {
    PutIsShown(s.segments, PlainCall(id, name, shown, input, Some(Running)));
  }

  /** So is the call of a stored part, of either kind. */
  lemma StoredCallIsShown(s: State, call: ToolCall, now: int)
    ensures CallShown(s.segments, AddPart(s, CallPart(call), now).segments, call)
  {
    PutIsShown(s.segments, call);
  }

  /** The result stands in the first segment of its id, whose call keeps all but its state, or in a new one
      at the end. */
  predicate ResultShown(before: seq<Segment>, after: seq<Segment>, result: ToolResult) {
    var k := FindTool(before, result.id);
    && k < |after| && after[k].ToolSeg? && after[k].result == Some(result)
    && if k == |before| then |after| == k + 1 && before <= after && after[k].call == None
       else
         && OnlyAt(before, after, k) && (after[k].call.Some? <==> before[k].call.Some?)
         && (after[k].call.Some? ==>
               && after[k].call.value.state == Some(if result.isError then Error else Done)
               && after[k].call.value == before[k].call.value.(state := after[k].call.value.state))
  }

  lemma ResultIsShown(s: State, result: ToolResult, citations: seq<Citation>, now: int)
    ensures ResultShown(s.segments, Apply(s, ResultEvent(result, citations), now).segments, result)
    ensures ResultShown(s.segments, AddPart(s, ResultPart(result), now).segments, result)
  {
    UpsertByIndex(s.segments, PutResult(result));
  }

  // ---------------------------------------------------------------- questions to the user

  /** The question of that id waits for its answer; nothing else changes. If the id has no open question,
      nothing changes at all. */
  predicate QuestionShown(before: seq<Segment>, after: seq<Segment>, id: string) {
    var k := FindTool(before, id);
    if k < |before| && before[k].call.Some? && before[k].result.None? && before[k].call.value.name == Some("ask_user") then
      && OnlyAt(before, after, k) && after[k].ToolSeg? && after[k].result == None
      && after[k].call == Some(before[k].call.value.(state := Some(Pending)))
    else after == before
  }

  lemma QuestionIsShown(s: State, id: string, now: int)
    ensures QuestionShown(s.segments, Do(s, AskUser(id), now).segments, id)
    ensures Do(s, AskUser(id), now) == s.(segments := Do(s, AskUser(id), now).segments)
  {
    MarkPendingByIndex(s.segments, id);
  }

  /** A restored question opens a segment if its id has none, and waits for its answer. */
  predicate QuestionRestored(before: seq<Segment>, after: seq<Segment>, id: string, input: Payload) {
    if FindTool(before, id) < |before| then QuestionShown(before, after, id)
    else after == before + [ToolSeg(Some(PlainCall(id, Some("ask_user"), Some("ask_user"), Some(input), Some(Pending))), None)]
  }

  lemma QuestionIsRestored(s: State, id: string, input: Payload, now: int)
    ensures QuestionRestored(s.segments, Do(s, Rehydrate(id, input), now).segments, id, input)
  {
    FoundIffHeld(s.segments, id, Rag);
    if FindTool(s.segments, id) < |s.segments| {
      MarkPendingByIndex(s.segments, id);
    } else {
      var call := PlainCall(id, Some("ask_user"), Some("ask_user"), Some(input), Some(Pending));
      var x := ToolSeg(Some(call), None);
      MarkPendingByIndex(s.segments + [x], id);
      FoundLast(s.segments, x, id);
      assert (s.segments + [x])[|s.segments| := Awaiting(x)] == s.segments + [x];
    }
  }

  // ---------------------------------------------------------------- tasks

  /** A task of that kind is added at the end. */
  predicate TaskOpened(before: seq<Segment>, after: seq<Segment>, t: TaskType, state: TaskState, info: Option<Info>) {
    |after| == |before| + 1 && before <= after && after[|before|] == TaskSeg(Task(t, state, info))
  }

  /** The last task of that kind gets the state, and the info if there is one. */
  predicate TaskMoved(before: seq<Segment>, after: seq<Segment>, t: TaskType, state: TaskState, info: Option<Info>) {
    var k := LastTask(before, t);
    if k < 0 then after == before
    else
      OnlyAt(before, after, k) && after[k].TaskSeg? && after[k].task.taskType == t && after[k].task.state == state
      && Taken(after[k].task.info, info, before[k].task.info)
  }

  lemma TouchMoves(segs: seq<Segment>, t: TaskType, state: TaskState, info: Option<Info>)
    ensures TaskMoved(segs, TouchLatest(segs, t, state, info), t, state, info)
  {
    TouchLatestByIndex(segs, t, state, info);
  }

  /** Retrieval and compression: a start opens a running task, an end completes the last one or adds a
      completed one. */
  predicate TaskShown(s: State, s1: State, e: StreamEvent) {
    match e
    case RagStart =>
      TaskOpened(s.segments, s1.segments, Rag, TaskRunning, None) && s1.tasks == s.tasks.(rag := TaskRunning)
    case CompressionStart(info) =>
      TaskOpened(s.segments, s1.segments, Compression, TaskRunning, info) && s1.tasks == s.tasks.(compression := TaskRunning)
    case RagContext(sources, found) =>
      && s1.sources == sources && s1.tasks == s.tasks.(rag := TaskCompleted, ragSourceCount := Some(|sources|))
      && (if LastTask(s.segments, Rag) >= 0 then TaskMoved(s.segments, s1.segments, Rag, TaskCompleted, Some(Structured(found)))
          else TaskOpened(s.segments, s1.segments, Rag, TaskCompleted, Some(Structured(found))))
    case CompressionEnd(info) =>
      && s1.tasks == s.tasks.(compression := TaskCompleted)
      && (if LastTask(s.segments, Compression) >= 0 then TaskMoved(s.segments, s1.segments, Compression, TaskCompleted, info)
          else TaskOpened(s.segments, s1.segments, Compression, TaskCompleted, info))
    case _ => true
  }

  lemma TaskIsShown(s: State, e: StreamEvent, now: int)
    ensures TaskShown(s, Apply(s, e, now), e)
  {
    FoundIffHeld(s.segments, "", Rag);
    FoundIffHeld(s.segments, "", Compression);
    if e.RagContext? { TouchMoves(s.segments, Rag, TaskCompleted, Some(Structured(e.found))); }
    if e.CompressionEnd? { TouchMoves(s.segments, Compression, TaskCompleted, e.info); }
  }

  /** The first text of an answer opens its task and completes a running retrieval. */
  predicate AnswerShown(s: State, s1: State) {
    if s.tasks.generating != TaskPending then s1.tasks == s.tasks && |s.segments| <= |s1.segments| <= |s.segments| + 1
    else
      && s1.tasks == s.tasks.(generating := TaskRunning, rag := if s.tasks.rag == TaskRunning then TaskCompleted else s.tasks.rag)
      && |s1.segments| == |s.segments| + 2
      && s1.segments[|s.segments|] == TaskSeg(Task(Generating, TaskRunning, None)) && s1.segments[|s.segments| + 1].TextSeg?
      && (if s.tasks.rag == TaskRunning then TaskMoved(s.segments, s1.segments[..|s.segments|], Rag, TaskCompleted, None)
          else s.segments <= s1.segments)
  }

  lemma AnswerIsShown(s: State, delta: string, now: int)
    ensures AnswerShown(s, Apply(s, ContentDelta(delta), now))
  {
    if s.tasks.generating == TaskPending {
      var segs := if s.tasks.rag == TaskRunning then TouchLatest(s.segments, Rag, TaskCompleted, None) else s.segments;
      TouchMoves(s.segments, Rag, TaskCompleted, None);
      TouchShape(s.segments, Rag, TaskCompleted, None);
      AnswerOpened(segs, delta);
    }
  }

  lemma AnswerOpened(segs: seq<Segment>, delta: string)
    ensures var segs1 := AppendText(segs + [TaskSeg(Task(Generating, TaskRunning, None))], delta);
            && |segs1| == |segs| + 2 && segs1[..|segs|] == segs
            && segs1[|segs|] == TaskSeg(Task(Generating, TaskRunning, None)) && segs1[|segs| + 1] == TextSeg(delta)
  {
  }

  // ---------------------------------------------------------------- thoughts

  /** What the reasoning events do to the blocks; the segments mirror them. */
  predicate ThoughtShown(s: State, s1: State, e: StreamEvent, now: int) {
    var n := |s.blocks|;
    match e
    case ReasoningStart => s1.blocks == s.blocks + [Block("", now, None, true)] && s1.current == n
    case ReasoningDelta(delta) =>
      if 0 <= s.current < n then
        && s1.current == s.current && |s1.blocks| == n
        && s1.blocks[s.current] == s.blocks[s.current].(text := s.blocks[s.current].text + delta)
        && forall k :: 0 <= k < n && k != s.current ==> s1.blocks[k] == s.blocks[k]
      else s1.blocks == s.blocks + [Block(delta, now, None, true)] && s1.current == n
    case ReasoningEnd =>
      && s1.current == s.current && |s1.blocks| == n
      && (forall k :: 0 <= k < n && k != s.current ==> s1.blocks[k] == s.blocks[k])
      && (0 <= s.current < n ==>
            var b := s.blocks[s.current];
            s1.blocks[s.current] == Block(b.text, b.startTime, Some(now - b.startTime), false))
    case _ => s1.blocks == s.blocks && s1.current == s.current
  }

  lemma ThoughtIsShown(s: State, e: StreamEvent, now: int)
    ensures ThoughtShown(s, Apply(s, e, now), e, now)
  {
    if e.ReasoningDelta? && !ThoughtOpen(s) {
      var s1 := OpenThought(s, now);
      assert s1.blocks[|s.blocks|].text + e.delta == e.delta;
      assert s1.blocks[|s.blocks| := Block(e.delta, now, None, true)] == s.blocks + [Block(e.delta, now, None, true)];
    }
  }

  // ---------------------------------------------------------------- the mirror in any state

  predicate Mirrored(s: State) {
    Mirror(s.segments, s.blocks)
  }

  lemma NumberedPush(blocks: seq<Block>, b: Block)
    ensures Numbered(blocks + [b]) == Numbered(blocks) + [(|blocks|, b)]
  {
  }

  lemma UpsertThoughts(segs: seq<Segment>, p: ToolPatch)
    ensures Collect(ThoughtOf, Upsert(segs, p)) == Collect(ThoughtOf, segs)
  {
    UpsertByIndex(segs, p);
    var k := FindTool(segs, p.Id());
    if k < |segs| { CollectSame(ThoughtOf, segs, k, p.Patched(segs[k])); } else { CollectPush(ThoughtOf, segs, p.Opened()); }
  }

  lemma TouchThoughts(segs: seq<Segment>, t: TaskType, state: TaskState, info: Option<Info>)
    ensures Collect(ThoughtOf, TouchLatest(segs, t, state, info)) == Collect(ThoughtOf, segs)
    ensures Collect(ThoughtOf, EnsureTask(segs, t, state, info)) == Collect(ThoughtOf, segs)
  {
    TouchShape(segs, t, state, info);
    TaskEditKeeps(segs, TouchLatest(segs, t, state, info));
    CollectPush(ThoughtOf, segs, TaskSeg(Task(t, state, info)));
  }

  lemma PendingThoughts(segs: seq<Segment>, id: string)
    ensures Collect(ThoughtOf, MarkPending(segs, id)) == Collect(ThoughtOf, segs)
  {
    MarkPendingByIndex(segs, id);
    var k := FindTool(segs, id);
    if k < |segs| && Askable(segs[k]) { CollectSame(ThoughtOf, segs, k, Awaiting(segs[k])); }
  }

  lemma TextThoughts(segs: seq<Segment>, delta: string)
    ensures Collect(ThoughtOf, AppendText(segs, delta)) == Collect(ThoughtOf, segs)
  {
    if EndsInText(segs) {
      var n := |segs| - 1;
      assert AppendText(segs, delta) == segs[n := TextSeg(segs[n].text + delta)];
      CollectSame(ThoughtOf, segs, n, TextSeg(segs[n].text + delta));
    } else {
      CollectPush(ThoughtOf, segs, TextSeg(delta));
    }
  }

  lemma OpenMirrored(s: State, now: int)
    requires Mirrored(s)
    ensures Mirrored(OpenThought(s, now))
  {
    CollectPush(ThoughtOf, s.segments, ReasoningSeg(|s.blocks|, "", true, now, None));
    NumberedPush(s.blocks, Block("", now, None, true));
  }

  lemma EditMirrored(s: State, p: ThoughtPatch)
    requires Mirrored(s) && ThoughtOpen(s)
    ensures Mirrored(EditThought(s, p))
  {
    PatchMirror(s.segments, Numbered(s.blocks), s.current, p);
    var b := Rethought(s.blocks[s.current], p);
    assert Numbered(s.blocks)[s.current := (s.current, b)] == Numbered(s.blocks[s.current := b]);
  }

  lemma EventMirrored(s: State, e: StreamEvent, now: int)
    requires Mirrored(s)
    ensures Mirrored(Apply(s, e, now))
  {
    match e
    case ReasoningStart => OpenMirrored(s, now);
    case ReasoningDelta(delta) =>
      OpenMirrored(s, now);
      var s1 := if ThoughtOpen(s) then s else OpenThought(s, now);
      EditMirrored(s1, Growth(s1, delta));
    case ReasoningEnd => if ThoughtOpen(s) { EditMirrored(s, Closure(s, now)); }
    case ContentDelta(delta) =>
      TouchThoughts(s.segments, Rag, TaskCompleted, None);
      CollectPush(ThoughtOf, s.segments, TaskSeg(Task(Generating, TaskRunning, None)));
      CollectPush(ThoughtOf, TouchLatest(s.segments, Rag, TaskCompleted, None), TaskSeg(Task(Generating, TaskRunning, None)));
      TextThoughts(BeginAnswer(s).segments, delta);
    case RagContext(_, found) => TouchThoughts(s.segments, Rag, TaskCompleted, Some(Structured(found)));
    case CompressionEnd(info) => TouchThoughts(s.segments, Compression, TaskCompleted, info);
    case CallEvent(_, _, _, _) => UpsertThoughts(s.segments, PutCall(StartedCall(e)));
    case ResultEvent(result, _) => UpsertThoughts(s.segments, PutResult(result));
    case RagStart => CollectPush(ThoughtOf, s.segments, TaskSeg(Task(Rag, TaskRunning, None)));
    case CompressionStart(info) => CollectPush(ThoughtOf, s.segments, TaskSeg(Task(Compression, TaskRunning, info)));
    case MediaEvent(body, _) => CollectPush(ThoughtOf, s.segments, MediaSeg(body));
    case OutputTruncated => CollectPush(ThoughtOf, s.segments, TruncatedSeg);
    case IterationCapReached(content) => CapMirrored(s.segments, content);
    case OtherEvent =>
  }

  lemma CapMirrored(segs: seq<Segment>, content: string)
    ensures Collect(ThoughtOf, segs + [IterationCapSeg] + (if content == "" then [] else [TextSeg(content)])) == Collect(ThoughtOf, segs)
  {
    CollectPush(ThoughtOf, segs, IterationCapSeg);
    assert segs + [IterationCapSeg] + [] == segs + [IterationCapSeg];
    CollectPush(ThoughtOf, segs + [IterationCapSeg], TextSeg(content));
  }

  lemma FinalMirrored(s: State, now: int)
    requires Mirrored(s)
    ensures Mirrored(Finalize(s, now))
  {
    var blocks := FinalBlocks(s.blocks, now);
    var closed := CloseThoughts(s.segments, blocks, |blocks|);
    CloseMirror(s.segments, s.blocks, now, |blocks|);
    assert Closing(s.blocks, blocks, |blocks|) == Numbered(blocks);
    CollectPointwise(ThoughtOf, closed, SettleAll(closed));
  }

  /** Thoughts and blocks correspond after every step, whatever state it starts from. */
  lemma StepMirrored(s: State, step: Step, now: int)
    requires Mirrored(s)
    ensures Mirrored(Do(s, step, now))
  {
    match step
    case Event(e) => EventMirrored(s, e, now);
    case Finish => FinalMirrored(s, now);
    case Failure =>
      TouchThoughts(s.segments, Compression, TaskError, None);
      FinalMirrored(FailCompression(s), now);
    case Instruct(content) => CollectPush(ThoughtOf, s.segments, InstructionSeg(content));
    case AskUser(id) => PendingThoughts(s.segments, id);
    case Rehydrate(id, input) =>
      var call := PlainCall(id, Some("ask_user"), Some("ask_user"), Some(input), Some(Pending));
      CollectPush(ThoughtOf, s.segments, ToolSeg(Some(call), None));
      PendingThoughts(s.segments, id);
      PendingThoughts(s.segments + [ToolSeg(Some(call), None)], id);
  }

  lemma AddPartMirrored(s: State, part: Part, now: int)
    requires Mirrored(s)
    ensures Mirrored(AddPart(s, part, now))
  {
    match part
    case CallPart(call) => UpsertThoughts(s.segments, PutCall(call));
    case ResultPart(result) => UpsertThoughts(s.segments, PutResult(result));
    case ReasoningPart(text, open, d) =>
      CollectPush(ThoughtOf, s.segments, ReasoningSeg(|s.blocks|, text, open, now, d));
      NumberedPush(s.blocks, Block(text, now, d, open));
    case TextPart(text, _) => CollectPush(ThoughtOf, s.segments, TextSeg(text));
    case InstructionPart(content) => CollectPush(ThoughtOf, s.segments, InstructionSeg(content));
    case TaskPart(task) => CollectPush(ThoughtOf, s.segments, TaskSeg(task));
    case MediaPart(body) => CollectPush(ThoughtOf, s.segments, MediaSeg(body));
    case TruncatedPart => CollectPush(ThoughtOf, s.segments, TruncatedSeg);
    case IterationCapPart => CollectPush(ThoughtOf, s.segments, IterationCapSeg);
    case SourcePart(_) =>
    case OtherPart(_) =>
  }

  /** So they do in a state rebuilt from any parts. */
  lemma {:induction false} LoadMirrored(parts: seq<Part>, now: int)
    ensures Mirrored(Load(parts, now)) && Mirrored(FromParts(parts, now))
  {
    if parts == [] {
      assert Numbered([]) == [];
    } else {
      LoadMirrored(parts[..|parts| - 1], now);
      AddPartMirrored(Load(parts[..|parts| - 1], now), parts[|parts| - 1], now);
    }
  }

  // ---------------------------------------------------------------- finalisation

  /** A running call is done, a running task completed and an open thought closed; all else stays. */
  predicate SegmentClosed(x: Segment, y: Segment) {
    match x
    case ToolSeg(call, result) =>
      y == if call.Some? && call.value.state == Some(Running) then ToolSeg(Some(call.value.(state := Some(Done))), result) else x
    case TaskSeg(task) =>
      y == if task.state == TaskRunning then TaskSeg(Task(task.taskType, TaskCompleted, task.info)) else x
    case ReasoningSeg(index, text, _, _, _) => y.ReasoningSeg? && y.index == index && y.text == text && !y.streaming
    case _ => y == x
  }

  /** An open block ends now; a closed one keeps its duration. */
  predicate BlockClosed(b: Block, c: Block, now: int) {
    c == Block(b.text, b.startTime, if b.streaming then Some(now - b.startTime) else b.duration, false)
  }

  predicate TaskClosed(x: TaskState, y: TaskState) {
    y == if x == TaskRunning then TaskCompleted else x
  }

  /** Everything that was open is closed, and nothing else changes. */
  predicate AllClosed(s: State, s1: State, now: int) {
    && |s1.segments| == |s.segments| && (forall i :: 0 <= i < |s.segments| ==> SegmentClosed(s.segments[i], s1.segments[i]))
    && |s1.blocks| == |s.blocks| && (forall k :: 0 <= k < |s.blocks| ==> BlockClosed(s.blocks[k], s1.blocks[k], now))
    && TaskClosed(s.tasks.rag, s1.tasks.rag) && TaskClosed(s.tasks.generating, s1.tasks.generating)
    && TaskClosed(s.tasks.toolCalling, s1.tasks.toolCalling) && TaskClosed(s.tasks.compression, s1.tasks.compression)
    && s1.tasks.ragSourceCount == s.tasks.ragSourceCount && s1.tasks.toolCallCount == s.tasks.toolCallCount
    && s1.sources == s.sources
  }

  /** Finalising closes everything in any state whose thoughts correspond to its blocks. */
  lemma FinishCloses(s: State, now: int)
    requires Mirrored(s)
    ensures AllClosed(s, Do(s, Finish, now), now) && Do(s, Finish, now).current == -1
    ensures Mirrored(Do(s, Finish, now))
  {
    FinalMirrored(s, now);
    var blocks, f := FinalBlocks(s.blocks, now), Finalize(s, now);
    var closed := CloseThoughts(s.segments, blocks, |blocks|);
    CloseMirror(s.segments, s.blocks, now, |blocks|);
    forall i | 0 <= i < |s.segments|
      ensures SegmentClosed(s.segments[i], f.segments[i])
    {
      assert f.segments[i] == Settle(closed[i]);
      if s.segments[i].ReasoningSeg? {
        ThoughtListed(s.segments, i);
        ThoughtListed(f.segments, i);
        var k := s.segments[i].index;
        assert ThoughtOf(s.segments[i])[0] == Numbered(s.blocks)[k] && ThoughtOf(f.segments[i])[0] == Numbered(blocks)[k];
      }
    }
  }

  lemma {:induction false} NoThoughts(segs: seq<Segment>)
    requires forall i :: 0 <= i < |segs| ==> !segs[i].ReasoningSeg?
    ensures Collect(ThoughtOf, segs) == []
  {
    if segs != [] { NoThoughts(segs[1..]); }
  }

  /** Where there is nothing to show, there is nothing to close. */
  lemma NothingToClose(s: State, now: int)
    requires Mirrored(s) && !HasProgress(s)
    ensures AllClosed(s, s, now)
  {
    forall i | 0 <= i < |s.segments|
      ensures !Progress(s.segments[i]) && SegmentClosed(s.segments[i], s.segments[i])
    {
      assert s.segments[i] in s.segments;
    }
    NoThoughts(s.segments);
    assert |Numbered(s.blocks)| == |s.blocks|;
  }

  /** A running compression has failed, and its last task says so. */
  predicate CompressionFailed(s: State, s1: State) {
    if s.tasks.compression == TaskRunning then
      s1.tasks == s.tasks.(compression := TaskError) && TaskMoved(s.segments, s1.segments, Compression, TaskError, None)
      && s1 == s.(segments := s1.segments, tasks := s1.tasks)
    else s1 == s
  }

  lemma CompressionFails(s: State)
    requires Mirrored(s)
    ensures CompressionFailed(s, FailCompression(s)) && Mirrored(FailCompression(s))
  {
    TouchThoughts(s.segments, Compression, TaskError, None);
    TouchMoves(s.segments, Compression, TaskError, None);
  }

  /** An error: a running compression fails, and then everything that is open is closed. */
  ghost predicate ErrorShown(s: State, s1: State, now: int) {
    s1.current == s.current && exists failed: State :: CompressionFailed(s, failed) && AllClosed(failed, s1, now)
  }

  lemma FailureCloses(s: State, now: int)
    requires Mirrored(s)
    ensures ErrorShown(s, Do(s, Failure, now), now)
  {
    var failed := FailCompression(s);
    CompressionFails(s);
    if HasProgress(failed) { FinishCloses(failed, now); } else { NothingToClose(failed, now); }
    assert CompressionFailed(s, failed) && AllClosed(failed, Do(s, Failure, now), now);
  }

  /** After an error no compression is running, and nothing else is. */
  lemma ErrorIsQuiet(s: State, s1: State, now: int)
    requires ErrorShown(s, s1, now)
    ensures s1.tasks.compression == (if s.tasks.compression == TaskRunning then TaskError else s.tasks.compression)
    ensures forall i :: 0 <= i < |s1.segments| ==> QuietSegment(s1.segments[i])
    ensures var k := LastTask(s.segments, Compression);
            k >= 0 && s.tasks.compression == TaskRunning ==>
              |s1.segments| == |s.segments| && s1.segments[k] == TaskSeg(Task(Compression, TaskError, s.segments[k].task.info))
  {
    var failed: State :| CompressionFailed(s, failed) && AllClosed(failed, s1, now);
    forall i | 0 <= i < |s1.segments|
      ensures QuietSegment(s1.segments[i])
    {
      assert SegmentClosed(failed.segments[i], s1.segments[i]);
    }
  }
}
