/** Markers and sources over whole runs: media, truncations, iteration caps and instructions are shown as
    they came, and every cited source is listed once.
  */
module StreamMarks {
  import opened Options
  import opened ChatParts
  import opened Timeline
  import opened TimelineFacts
  import opened StreamInvariants
  import opened StreamTheorems

  // ---------------------------------------------------------------- markers

  /** The parts of a rendering that are markers: displayed media, notices and instructions. */
  predicate IsMark(part: Part) {
    part.MediaPart? || part.TruncatedPart? || part.IterationCapPart? || part.InstructionPart?
  }

  function Marks(parts: seq<Part>): seq<Part> {
    if parts == [] then [] else (if IsMark(parts[0]) then [parts[0]] else []) + Marks(parts[1..])
  }

  /** The marker a step brings, if any. */
  function Marked(step: Step): seq<Part> {
    match step
    case Event(MediaEvent(body, true)) => [MediaPart(body)]
    case Event(OutputTruncated) => [TruncatedPart]
    case Event(IterationCapReached(_)) => [IterationCapPart]
    case Instruct(content) => if content == "" then [] else [InstructionPart(content)]
    case _ => []
  }

  function MarkedAll(steps: seq<Timed>): seq<Part> {
    if steps == [] then [] else MarkedAll(steps[..|steps| - 1]) + Marked(steps[|steps| - 1].step)
  }

  function MarkOf(seg: Segment): seq<Part> {
    match seg
    case MediaSeg(body) => [MediaPart(body)]
    case TruncatedSeg => [TruncatedPart]
    case IterationCapSeg => [IterationCapPart]
    case InstructionSeg(content) => if content == "" then [] else [InstructionPart(content)]
    case _ => []
  }

  lemma {:induction false} MarksAppend(a: seq<Part>, b: seq<Part>)
    ensures Marks(a + b) == Marks(a) + Marks(b)
  {
    if a == [] {
      assert a + b == b;
    } else {
      MarksAppend(a[1..], b);
      MarksOfFirst(a[0], a[1..]);
      MarksOfFirst(a[0], a[1..] + b);
      assert a == [a[0]] + a[1..] && a + b == [a[0]] + (a[1..] + b);
    }
  }

  lemma MarksOfFirst(part: Part, rest: seq<Part>)
    ensures Marks([part] + rest) == (if IsMark(part) then [part] else []) + Marks(rest)
  {
    assert ([part] + rest)[1..] == rest;
  }

  lemma SegmentMarks(seg: Segment, streaming: bool)
    ensures Marks(PartsOf(seg, streaming)) == MarkOf(seg)
  {
    if seg.ToolSeg? {
      MarksAppend(if seg.call.Some? then [CallPart(seg.call.value)] else [],
                  if seg.result.Some? then [ResultPart(seg.result.value)] else []);
    }
  }

  lemma {:induction false} RenderMarks(segs: seq<Segment>, streaming: bool)
    ensures Marks(Render(segs, streaming)) == Collect(MarkOf, segs)
  {
    if segs != [] {
      RenderMarks(segs[1..], streaming);
      SegmentMarks(segs[0], streaming);
      MarksAppend(PartsOf(segs[0], streaming), Render(segs[1..], streaming));
    }
  }

  lemma {:induction false} FooterMarks(sources: seq<Source>)
    ensures Marks(Footer(sources)) == []
  {
    if sources != [] {
      assert Footer(sources)[1..] == Footer(sources[1..]);
      FooterMarks(sources[1..]);
    }
  }

  lemma EditMarks(a: seq<Segment>, b: seq<Segment>)
    requires ToolEdit(a, b) || TaskEdit(a, b) || ThoughtEdit(a, b) || AllAlike(a, b)
    ensures Collect(MarkOf, a) == Collect(MarkOf, b)
  {
    forall i | 0 <= i < |a|
      ensures MarkOf(a[i]) == MarkOf(b[i])
    {
      assert AllAlike(a, b) ==> Alike(a[i], b[i]);
    }
    CollectPointwise(MarkOf, a, b);
  }

  lemma TouchMarks(segs: seq<Segment>, t: TaskType, state: TaskState, info: Option<Info>)
    ensures Collect(MarkOf, TouchLatest(segs, t, state, info)) == Collect(MarkOf, segs)
    ensures Collect(MarkOf, EnsureTask(segs, t, state, info)) == Collect(MarkOf, segs)
  {
    TouchShape(segs, t, state, info);
    EditMarks(segs, TouchLatest(segs, t, state, info));
    CollectPush(MarkOf, segs, TaskSeg(Task(t, state, info)));
  }

  lemma UpsertMarks(segs: seq<Segment>, p: ToolPatch)
    ensures Collect(MarkOf, Upsert(segs, p)) == Collect(MarkOf, segs)
  {
    UpsertByIndex(segs, p);
    var k := FindTool(segs, p.Id());
    if k < |segs| { CollectSame(MarkOf, segs, k, p.Patched(segs[k])); } else { CollectPush(MarkOf, segs, p.Opened()); }
  }

  lemma PatchMarks(segs: seq<Segment>, n: int, p: ThoughtPatch)
    ensures Collect(MarkOf, PatchThought(segs, n, p)) == Collect(MarkOf, segs)
  {
    PatchThoughtByIndex(segs, n, p);
    var k := FindThought(segs, n);
    if k < |segs| { CollectSame(MarkOf, segs, k, Rethink(segs[k], p)); }
  }

  lemma TextMarks(segs: seq<Segment>, delta: string)
    ensures Collect(MarkOf, AppendText(segs, delta)) == Collect(MarkOf, segs)
  {
    if EndsInText(segs) {
      var n := |segs| - 1;
      assert AppendText(segs, delta) == segs[n := TextSeg(segs[n].text + delta)];
      CollectSame(MarkOf, segs, n, TextSeg(segs[n].text + delta));
    } else {
      CollectPush(MarkOf, segs, TextSeg(delta));
    }
  }

  lemma BeginMarks(s: State)
    ensures Collect(MarkOf, BeginAnswer(s).segments) == Collect(MarkOf, s.segments)
  {
    TouchMarks(s.segments, Rag, TaskCompleted, None);
    CollectPush(MarkOf, s.segments, TaskSeg(Task(Generating, TaskRunning, None)));
    CollectPush(MarkOf, TouchLatest(s.segments, Rag, TaskCompleted, None), TaskSeg(Task(Generating, TaskRunning, None)));
  }

  lemma ApplyMarks(s: State, e: StreamEvent, now: int)
    ensures Collect(MarkOf, Apply(s, e, now).segments) == Collect(MarkOf, s.segments) + Marked(Event(e))
  {
    match e
    case ReasoningDelta(delta) =>
      var s1 := if ThoughtOpen(s) then s else OpenThought(s, now);
      CollectPush(MarkOf, s.segments, ReasoningSeg(|s.blocks|, "", true, now, None));
      PatchMarks(s1.segments, s1.current, Growth(s1, delta));
    case ReasoningEnd => if ThoughtOpen(s) { PatchMarks(s.segments, s.current, Closure(s, now)); }
    case ContentDelta(delta) =>
      BeginMarks(s);
      TextMarks(BeginAnswer(s).segments, delta);
    case RagContext(_, found) => TouchMarks(s.segments, Rag, TaskCompleted, Some(Structured(found)));
    case CompressionEnd(info) => TouchMarks(s.segments, Compression, TaskCompleted, info);
    case CallEvent(_, _, _, _) => UpsertMarks(s.segments, PutCall(StartedCall(e)));
    case ResultEvent(result, _) => UpsertMarks(s.segments, PutResult(result));
    case IterationCapReached(content) => CapMarks(s.segments, content);
    case RagStart => CollectPush(MarkOf, s.segments, TaskSeg(Task(Rag, TaskRunning, None)));
    case ReasoningStart => CollectPush(MarkOf, s.segments, ReasoningSeg(|s.blocks|, "", true, now, None));
    case CompressionStart(info) => CollectPush(MarkOf, s.segments, TaskSeg(Task(Compression, TaskRunning, info)));
    case MediaEvent(body, _) => CollectPush(MarkOf, s.segments, MediaSeg(body));
    case OutputTruncated => CollectPush(MarkOf, s.segments, TruncatedSeg);
    case OtherEvent =>
  }

  lemma CapMarks(segs: seq<Segment>, content: string)
    ensures Collect(MarkOf, segs + [IterationCapSeg] + (if content == "" then [] else [TextSeg(content)]))
            == Collect(MarkOf, segs) + [IterationCapPart]
  {
    CollectPush(MarkOf, segs, IterationCapSeg);
    assert segs + [IterationCapSeg] + [] == segs + [IterationCapSeg];
    CollectPush(MarkOf, segs + [IterationCapSeg], TextSeg(content));
  }

  lemma {:induction false} CloseMarks(segs: seq<Segment>, blocks: seq<Block>, n: nat)
    requires n <= |blocks|
    ensures Collect(MarkOf, CloseThoughts(segs, blocks, n)) == Collect(MarkOf, segs)
  {
    if n > 0 {
      CloseMarks(segs, blocks, n - 1);
      PatchMarks(CloseThoughts(segs, blocks, n - 1), n - 1, Close(blocks[n - 1].text, blocks[n - 1].duration));
    }
  }

  lemma FinalizeMarks(s: State, now: int)
    ensures Collect(MarkOf, Finalize(s, now).segments) == Collect(MarkOf, s.segments)
  {
    var blocks := FinalBlocks(s.blocks, now);
    var closed := CloseThoughts(s.segments, blocks, |blocks|);
    CloseMarks(s.segments, blocks, |blocks|);
    CollectPointwise(MarkOf, closed, SettleAll(closed));
  }

  lemma PendingMarks(segs: seq<Segment>, id: string)
    ensures Collect(MarkOf, MarkPending(segs, id)) == Collect(MarkOf, segs)
  {
    MarkPendingByIndex(segs, id);
    var k := FindTool(segs, id);
    if k < |segs| && Askable(segs[k]) { CollectSame(MarkOf, segs, k, Awaiting(segs[k])); }
  }

  /** In any state, a step adds exactly the marker it brings, at the end. */
  lemma StepMarks(s: State, step: Step, now: int)
    ensures Collect(MarkOf, Do(s, step, now).segments) == Collect(MarkOf, s.segments) + Marked(step)
  {
    match step
    case Event(e) => ApplyMarks(s, e, now);
    case Finish => FinalizeMarks(s, now);
    case Failure =>
      TouchMarks(s.segments, Compression, TaskError, None);
      FinalizeMarks(FailCompression(s), now);
    case Instruct(content) => CollectPush(MarkOf, s.segments, InstructionSeg(content));
    case AskUser(id) => PendingMarks(s.segments, id);
    case Rehydrate(id, input) =>
      var call := PlainCall(id, Some("ask_user"), Some("ask_user"), Some(input), Some(Pending));
      CollectPush(MarkOf, s.segments, ToolSeg(Some(call), None));
      PendingMarks(s.segments, id);
      PendingMarks(s.segments + [ToolSeg(Some(call), None)], id);
  }

  lemma {:induction false} RunMarks(s: State, steps: seq<Timed>)
    ensures Collect(MarkOf, Run(s, steps).segments) == Collect(MarkOf, s.segments) + MarkedAll(steps)
  {
    if steps != [] {
      var n := |steps| - 1;
      RunMarks(s, steps[..n]);
      StepMarks(Run(s, steps[..n]), steps[n].step, steps[n].now);
    }
  }

  /** The markers a session shows are those its run brought, all of them, in order. */
  lemma {:induction false} MarksAreShown(steps: seq<Timed>, streaming: bool)
    ensures Marks(Build(Run(EMPTY_STATE, steps), streaming)) == MarkedAll(steps)
  {
    var s := Run(EMPTY_STATE, steps);
    RunMarks(EMPTY_STATE, steps);
    RenderMarks(s.segments, streaming);
    FooterMarks(s.sources);
    MarksAppend(Render(s.segments, streaming), if streaming then [] else Footer(s.sources));
  }

  // ---------------------------------------------------------------- sources

  /** The id is known from the sources or from an earlier citation. */
  predicate Known(sources: seq<Source>, citations: seq<Citation>, n: nat)
    requires n < |citations|
  {
    || (citations[n].id != "" && exists s :: s in sources && s.sourceId == Some(citations[n].id))
    || exists i :: 0 <= i < n && citations[i].id == citations[n].id
  }

  /** What the first `n` citations add to the sources: each new id once, where it is cited first; a link
      without a target is not listed. */
  function NewlyCited(sources: seq<Source>, citations: seq<Citation>, n: nat): seq<Source>
    requires n <= |citations|
  {
    if n == 0 then []
    else
      NewlyCited(sources, citations, n - 1)
      + (if Known(sources, citations, n - 1) then []
         else
           match citations[n - 1]
           case UrlCitation(id, url, body) => if url == "" then [] else [UrlSource(Some(id), url, body)]
           case DocumentCitation(id, body) => [DocumentSource(Some(id), body)])
  }

  lemma {:induction false} CitedPush(known: set<string>, citations: seq<Citation>, c: Citation)
    ensures Cited(known, citations + [c])
            == Cited(known, citations)
               + (if c.id in known || (exists i :: 0 <= i < |citations| && citations[i].id == c.id) then [] else AsSource(c))
    decreases |citations|
  {
    if citations == [] {
      assert Cited(known, [c]) == if c.id in known then [] else AsSource(c) + Cited(known + {c.id}, []);
    } else {
      var first, rest := citations[0], citations[1..];
      assert (citations + [c])[1..] == rest + [c];
      CitedPush(if first.id in known then known else known + {first.id}, rest, c);
      var earlier := exists i :: 0 <= i < |citations| && citations[i].id == c.id;
      var later := exists i :: 0 <= i < |rest| && rest[i].id == c.id;
      assert earlier <==> first.id == c.id || later by {
        if i :| 0 <= i < |citations| && citations[i].id == c.id { assert i > 0 ==> rest[i - 1].id == c.id; }
        if i :| 0 <= i < |rest| && rest[i].id == c.id { assert citations[i + 1].id == c.id; }
      }
    }
  }

  lemma {:induction false} CitedInOrder(sources: seq<Source>, citations: seq<Citation>, n: nat)
    requires n <= |citations|
    ensures Cited(KnownIds(sources), citations[..n]) == NewlyCited(sources, citations, n)
  {
    if n > 0 {
      CitedInOrder(sources, citations, n - 1);
      assert citations[..n] == citations[..n - 1] + [citations[n - 1]];
      CitedPush(KnownIds(sources), citations[..n - 1], citations[n - 1]);
    }
  }

  /** A result adds the sources it cites, each once, and keeps those that are there; no other event but a
      retrieval's changes them. */
  lemma SourcesAreCited(s: State, e: StreamEvent, now: int)
    ensures var s1 := Apply(s, e, now);
            match e
            case ResultEvent(_, citations) => s1.sources == s.sources + NewlyCited(s.sources, citations, |citations|)
            case RagContext(sources, _) => s1.sources == sources
            case _ => s1.sources == s.sources
  {
    if e.ResultEvent? {
      CitedInOrder(s.sources, e.citations, |e.citations|);
      assert e.citations[..|e.citations|] == e.citations;
    }
  }

  // ---------------------------------------------------------------- tasks, sources and flags as rendered

  function SourcesIn(parts: seq<Part>): seq<Source> {
    if parts == [] then [] else (if parts[0].SourcePart? then [parts[0].source] else []) + SourcesIn(parts[1..])
  }

  function TasksIn(parts: seq<Part>): seq<Task> {
    if parts == [] then [] else (if parts[0].TaskPart? then [parts[0].task] else []) + TasksIn(parts[1..])
  }

  function TaskOf(seg: Segment): seq<Task> {
    if seg.TaskSeg? then [seg.task] else []
  }

  lemma {:induction false} SourcesAppend(a: seq<Part>, b: seq<Part>)
    ensures SourcesIn(a + b) == SourcesIn(a) + SourcesIn(b)
  {
    if a == [] {
      assert a + b == b;
    } else {
      assert (a + b)[1..] == a[1..] + b;
      SourcesAppend(a[1..], b);
    }
  }

  lemma {:induction false} TasksAppend(a: seq<Part>, b: seq<Part>)
    ensures TasksIn(a + b) == TasksIn(a) + TasksIn(b)
  {
    if a == [] {
      assert a + b == b;
    } else {
      assert (a + b)[1..] == a[1..] + b;
      TasksAppend(a[1..], b);
    }
  }

  lemma PartsInAppend(a: seq<Part>, b: seq<Part>)
    ensures SourcesIn(a + b) == SourcesIn(a) + SourcesIn(b) && TasksIn(a + b) == TasksIn(a) + TasksIn(b)
  {
    SourcesAppend(a, b);
    TasksAppend(a, b);
  }

  /** A task as it is shown: while streaming as it is, and afterwards completed unless it failed. */
  predicate TaskRendered(task: Task, shown: Task, streaming: bool) {
    && shown.taskType == task.taskType && shown.info == task.info
    && shown.state == (if streaming || task.state == TaskError then task.state else TaskCompleted)
  }

  predicate TasksRendered(tasks: seq<Task>, shown: seq<Task>, streaming: bool) {
    |shown| == |tasks| && forall i :: 0 <= i < |tasks| ==> TaskRendered(tasks[i], shown[i], streaming)
  }

  predicate FlagsRendered(parts: seq<Part>, streaming: bool) {
    forall p :: p in parts && p.TextPart? ==> p.streaming == streaming
  }

  lemma SegmentRendered(seg: Segment, streaming: bool)
    ensures var parts := PartsOf(seg, streaming);
            SourcesIn(parts) == [] && TasksRendered(TaskOf(seg), TasksIn(parts), streaming) && FlagsRendered(parts, streaming)
  {
    if seg.ToolSeg? {
      PartsInAppend(if seg.call.Some? then [CallPart(seg.call.value)] else [],
                    if seg.result.Some? then [ResultPart(seg.result.value)] else []);
    }
  }

  lemma {:induction false} TimelineRendered(segs: seq<Segment>, streaming: bool)
    ensures var parts := Render(segs, streaming);
            && SourcesIn(parts) == [] && TasksRendered(Collect(TaskOf, segs), TasksIn(parts), streaming)
            && FlagsRendered(parts, streaming)
  {
    if segs != [] {
      TimelineRendered(segs[1..], streaming);
      SegmentRendered(segs[0], streaming);
      PartsInAppend(PartsOf(segs[0], streaming), Render(segs[1..], streaming));
    }
  }

  lemma {:induction false} FooterRendered(sources: seq<Source>)
    ensures SourcesIn(Footer(sources)) == sources && TasksIn(Footer(sources)) == []
    ensures forall p :: p in Footer(sources) ==> p.SourcePart?
  {
    if sources != [] {
      assert Footer(sources)[1..] == Footer(sources[1..]);
      FooterRendered(sources[1..]);
    }
  }

  /** The rendering of any state: every task in order, as running as it is while streaming and over
      afterwards, text marked as streaming or not, and the sources at the end, once streaming is over. */
  lemma MessageIsRendered(s: State, streaming: bool)
    ensures var parts := Build(s, streaming);
            && TasksRendered(Collect(TaskOf, s.segments), TasksIn(parts), streaming)
            && FlagsRendered(parts, streaming)
            && SourcesIn(parts) == (if streaming then [] else s.sources)
            && (!streaming ==> forall k :: |parts| - |s.sources| <= k < |parts| ==> k >= 0 && parts[k].SourcePart?)
  {
    TimelineRendered(s.segments, streaming);
    FooterRendered(s.sources);
    PartsInAppend(Render(s.segments, streaming), if streaming then [] else Footer(s.sources));
  }

  // ---------------------------------------------------------------- the table of a rebuilt state

  /** The last stored task of that type, if any. */
  function LastStored(parts: seq<Part>, t: TaskType): Option<Task> {
    if parts == [] then None
    else
      var last := parts[|parts| - 1];
      if last.TaskPart? && last.task.taskType == t then Some(last.task) else LastStored(parts[..|parts| - 1], t)
  }

  function LastCall(parts: seq<Part>): Option<ToolCall> {
    if parts == [] then None
    else
      var last := parts[|parts| - 1];
      if last.CallPart? then Some(last.call) else LastCall(parts[..|parts| - 1])
  }

  function StoredState(task: Option<Task>): TaskState {
    if task.Some? then task.value.state else TaskPending
  }

  function StoredCount(task: Option<Task>): Option<int> {
    if task.Some? && task.value.info.Some? && task.value.info.value.Number? then Some(task.value.info.value.n) else None
  }

  function StoredCalling(call: Option<ToolCall>): TaskState {
    if call.None? then TaskPending else if call.value.state == Some(Running) then TaskRunning else TaskCompleted
  }

  /** The table shows the last stored task of each kind, and whether the last stored call was running. */
  predicate TableStored(t: TaskTable, parts: seq<Part>) {
    && t.rag == StoredState(LastStored(parts, Rag)) && t.ragSourceCount == StoredCount(LastStored(parts, Rag))
    && t.generating == StoredState(LastStored(parts, Generating))
    && t.compression == StoredState(LastStored(parts, Compression))
    && t.toolCalling == StoredCalling(LastCall(parts)) && t.toolCallCount == None
  }

  lemma {:induction false} LoadedTable(parts: seq<Part>, now: int)
    ensures TableStored(Load(parts, now).tasks, parts)
  {
    if parts != [] {
      var front, last := parts[..|parts| - 1], parts[|parts| - 1];
      LoadedTable(front, now);
      LoadedPart(Load(front, now), front, last, now);
      assert parts == front + [last];
    }
  }

  lemma LoadedPart(s: State, parts: seq<Part>, part: Part, now: int)
    requires TableStored(s.tasks, parts)
    ensures TableStored(AddPart(s, part, now).tasks, parts + [part])
  {
    assert (parts + [part])[..|parts|] == parts;
  }

  /** In a rebuilt state calls are over, besides, if there are any and all of them are terminal. */
  lemma RebuiltTable(parts: seq<Part>, now: int)
    ensures var s := FromParts(parts, now);
            var calls := Collect(CallOf, s.segments);
            && TableStored(s.tasks.(toolCalling := StoredCalling(LastCall(parts))), parts)
            && s.tasks.toolCalling == (if calls != [] && (forall c :: c in calls ==> c.state == Some(Done) || c.state == Some(Error))
                                       then TaskCompleted else StoredCalling(LastCall(parts)))
  {
    LoadedTable(parts, now);
  }

  /** Thoughts are stored as reasoning parts. */
  function StoredThoughts(parts: seq<Part>): nat {
    if parts == [] then 0
    else StoredThoughts(parts[..|parts| - 1]) + (if parts[|parts| - 1].ReasoningPart? then 1 else 0)
  }

  /** Whether the last stored thought was still streaming. */
  predicate ThoughtStored(parts: seq<Part>) {
    parts != []
    && var last := parts[|parts| - 1];
       if last.ReasoningPart? then last.streaming else ThoughtStored(parts[..|parts| - 1])
  }

  /** A rebuilt state goes on with the last stored thought exactly if that was still streaming. */
  lemma {:induction false} RebuiltThought(parts: seq<Part>, now: int)
    ensures var s := Load(parts, now);
            && |s.blocks| == StoredThoughts(parts)
            && s.current == (if ThoughtStored(parts) then |s.blocks| - 1 else -1)
            && FromParts(parts, now) == s.(tasks := FromParts(parts, now).tasks)
  {
    if parts != [] { RebuiltThought(parts[..|parts| - 1], now); }
  }
}
