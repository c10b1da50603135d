/** Every session step keeps the invariant and only appends to the timeline. */
module StreamSteps {
  import opened Options
  import opened ChatParts
  import opened Timeline
  import opened TimelineFacts
  import opened StreamInvariants

  /** Old tags stay, in place: the old timeline is a prefix of the new one up to in-place updates. */
  predicate Extends(a: seq<Segment>, b: seq<Segment>) {
    Tags(a) <= Tags(b)
  }

  lemma ExtendsEdit(a: seq<Segment>, b: seq<Segment>)
    requires ToolEdit(a, b) || TaskEdit(a, b) || ThoughtEdit(a, b)
    ensures Extends(a, b) && Tags(a) == Tags(b)
    ensures TextShape(a) ==> TextShape(b)
    ensures EndsInText(a) <==> EndsInText(b)
  {
    EditsAreAlike(a, b);
    AlikeKeepsText(a, b);
    assert a != [] ==> Alike(a[|a| - 1], b[|a| - 1]);
  }

  lemma ExtendsPush(a: seq<Segment>, x: Segment)
    ensures Extends(a, a + [x])
  {
    assert Tags(a + [x])[..|a|] == Tags(a);
  }

  lemma ToolStep(s: State, p: ToolPatch, sources: seq<Source>, tasks: TaskTable)
    requires Inv(s) && (p.PutCall? ==> p.call.PlainCall?)
    requires Linked(s.segments, tasks)
    ensures var after := s.(segments := Upsert(s.segments, p), sources := sources, tasks := tasks);
            Inv(after) && Extends(s.segments, after.segments)
  {
    UpsertShape(s.segments, p);
    var after := Upsert(s.segments, p);
    if FindTool(s.segments, p.Id()) < |s.segments| {
      ToolEditKeeps(s.segments, after, Rag);
      ToolEditKeeps(s.segments, after, Generating);
      ToolEditKeeps(s.segments, after, Compression);
      ExtendsEdit(s.segments, after);
    } else {
      PushShape(s.segments, p.Opened());
      ExtendsPush(s.segments, p.Opened());
    }
  }

  lemma PendingStep(s: State, id: string)
    requires Inv(s)
    ensures var after := s.(segments := MarkPending(s.segments, id));
            Inv(after) && Extends(s.segments, after.segments)
  {
    MarkPendingShape(s.segments, id);
    var after := MarkPending(s.segments, id);
    ToolEditKeeps(s.segments, after, Rag);
    ToolEditKeeps(s.segments, after, Generating);
    ToolEditKeeps(s.segments, after, Compression);
    ExtendsEdit(s.segments, after);
  }

  /** A task of kind `t` is appended, and the table says so. */
  lemma AppendTaskStep(s: State, task: Task, tasks: TaskTable)
    requires Inv(s) && Linked(s.segments + [TaskSeg(task)], tasks) && task.state != TaskPending
    ensures var after := s.(segments := s.segments + [TaskSeg(task)], tasks := tasks);
            Inv(after) && Extends(s.segments, after.segments)
  {
    PushShape(s.segments, TaskSeg(task));
    ExtendsPush(s.segments, TaskSeg(task));
  }

  lemma TouchStep(s: State, t: TaskType, state: TaskState, info: Option<Info>, sources: seq<Source>, tasks: TaskTable)
    requires Inv(s) && Linked(TouchLatest(s.segments, t, state, info), tasks) && state != TaskPending
    ensures var after := s.(segments := TouchLatest(s.segments, t, state, info), sources := sources, tasks := tasks);
            Inv(after) && Extends(s.segments, after.segments) && (EndsInText(s.segments) <==> EndsInText(after.segments))
  {
    TouchShape(s.segments, t, state, info);
    TaskEditKeeps(s.segments, TouchLatest(s.segments, t, state, info));
    ExtendsEdit(s.segments, TouchLatest(s.segments, t, state, info));
  }

  lemma EnsureStep(s: State, t: TaskType, info: Option<Info>, sources: seq<Source>, tasks: TaskTable)
    requires Inv(s) && Linked(EnsureTask(s.segments, t, TaskCompleted, info), tasks)
    ensures var after := s.(segments := EnsureTask(s.segments, t, TaskCompleted, info), sources := sources, tasks := tasks);
            Inv(after) && Extends(s.segments, after.segments)
  {
    if HasTask(s.segments, t) {
      TouchStep(s, t, TaskCompleted, info, sources, tasks);
    } else {
      AppendTaskStep(s.(sources := sources), Task(t, TaskCompleted, info), tasks);
    }
  }

  lemma EnsuredState(segs: seq<Segment>, t: TaskType, info: Option<Info>)
    ensures forall u :: LatestState(EnsureTask(segs, t, TaskCompleted, info), u)
                        == if u == t then TaskCompleted else LatestState(segs, u)
  {
    if HasTask(segs, t) {
      TouchShape(segs, t, TaskCompleted, info);
    } else {
      PushShape(segs, TaskSeg(Task(t, TaskCompleted, info)));
    }
  }

  /** Something is appended that is neither text nor a tool, task or thought. */
  lemma PushStep(s: State, x: Segment)
    requires Inv(s)
    requires !x.ToolSeg? && !x.TaskSeg? && !x.ReasoningSeg?
    requires (x.InstructionSeg? ==> x.content != "") && (x.TextSeg? ==> !EndsInText(s.segments))
    ensures var after := s.(segments := s.segments + [x]);
            Inv(after) && Extends(s.segments, after.segments)
  {
    PushShape(s.segments, x);
    ExtendsPush(s.segments, x);
  }

  lemma OpenStep(s: State, now: int)
    requires Inv(s)
    ensures Inv(OpenThought(s, now)) && ThoughtOpen(OpenThought(s, now))
    ensures Extends(s.segments, OpenThought(s, now).segments)
  {
    var x := ReasoningSeg(|s.blocks|, "", true, now, None);
    PushShape(s.segments, x);
    ExtendsPush(s.segments, x);
    assert Numbered(s.blocks + [Block("", now, None, true)]) == Numbered(s.blocks) + ThoughtOf(x);
  }

  lemma EditStep(s: State, p: ThoughtPatch)
    requires Inv(s) && ThoughtOpen(s)
    ensures Inv(EditThought(s, p)) && Extends(s.segments, EditThought(s, p).segments)
  {
    PatchMirror(s.segments, Numbered(s.blocks), s.current, p);
    var after, b := PatchThought(s.segments, s.current, p), Rethought(s.blocks[s.current], p);
    assert Numbered(s.blocks[s.current := b]) == Numbered(s.blocks)[s.current := (s.current, b)];
    ThoughtEditKeeps(s.segments, after, Rag);
    ThoughtEditKeeps(s.segments, after, Generating);
    ThoughtEditKeeps(s.segments, after, Compression);
    ExtendsEdit(s.segments, after);
  }

  /** Longer text in the last segment changes nothing else. */
  lemma GrowLastText(front: seq<Segment>, text: string, longer: string)
    requires Tools(front + [TextSeg(text)]) && PlainTools(front + [TextSeg(text)])
    requires TextShape(front + [TextSeg(text)]) && Live(front + [TextSeg(text)])
    ensures Tools(front + [TextSeg(longer)]) && PlainTools(front + [TextSeg(longer)])
    ensures TextShape(front + [TextSeg(longer)]) && Live(front + [TextSeg(longer)])
    ensures Tags(front + [TextSeg(longer)]) == Tags(front + [TextSeg(text)])
  {
    var a, b := front + [TextSeg(text)], front + [TextSeg(longer)];
    forall i | 0 <= i < |a|
      ensures a[i] == b[i] || (i == |front| && a[i].TextSeg? && b[i].TextSeg?)
      ensures Coherent(b[i])
    {
      assert Coherent(a[i]);
    }
  }

  lemma GrowLastFacts(front: seq<Segment>, text: string, longer: string, t: TaskType)
    ensures Collect(ThoughtOf, front + [TextSeg(text)]) == Collect(ThoughtOf, front + [TextSeg(longer)])
    ensures LatestState(front + [TextSeg(text)], t) == LatestState(front + [TextSeg(longer)], t)
  {
    PushShape(front, TextSeg(text));
    PushShape(front, TextSeg(longer));
  }

  lemma TextStep(s: State, delta: string)
    requires Inv(s)
    ensures var after := s.(segments := AppendText(s.segments, delta));
            Inv(after) && Extends(s.segments, after.segments)
  {
    if EndsInText(s.segments) {
      var n := |s.segments| - 1;
      var front, text := s.segments[..n], s.segments[n].text;
      assert s.segments == front + [TextSeg(text)];
      GrowLastText(front, text, text + delta);
      GrowLastFacts(front, text, text + delta, Rag);
      GrowLastFacts(front, text, text + delta, Generating);
      GrowLastFacts(front, text, text + delta, Compression);
    } else {
      PushStep(s, TextSeg(delta));
    }
  }

  lemma BeginStep(s: State)
    requires Inv(s)
    ensures Inv(BeginAnswer(s)) && Extends(s.segments, BeginAnswer(s).segments)
  {
    if s.tasks.generating == TaskPending {
      var s1 := if s.tasks.rag != TaskRunning then s
                else s.(tasks := s.tasks.(rag := TaskCompleted),
                        segments := TouchLatest(s.segments, Rag, TaskCompleted, None));
      if s.tasks.rag == TaskRunning {
        TouchShape(s.segments, Rag, TaskCompleted, None);
        FoundIffHeld(s.segments, "", Rag);
        TouchStep(s, Rag, TaskCompleted, None, s.sources, s1.tasks);
      }
      var task := Task(Generating, TaskRunning, None);
      PushShape(s1.segments, TaskSeg(task));
      AppendTaskStep(s1, task, s1.tasks.(generating := TaskRunning));
    }
  }

  lemma ReasoningKeeps(s: State, e: StreamEvent, now: int)
    requires Inv(s) && (e.ReasoningStart? || e.ReasoningDelta? || e.ReasoningEnd?)
    ensures Inv(Apply(s, e, now)) && Extends(s.segments, Apply(s, e, now).segments)
  {
    match e
    case ReasoningStart => OpenStep(s, now);
    case ReasoningDelta(delta) =>
      if !ThoughtOpen(s) { OpenStep(s, now); }
      var s1 := if ThoughtOpen(s) then s else OpenThought(s, now);
      EditStep(s1, Growth(s1, delta));
    case ReasoningEnd => if ThoughtOpen(s) { EditStep(s, Closure(s, now)); }
  }

  lemma TaskKeeps(s: State, e: StreamEvent, now: int)
    requires Inv(s) && (e.RagStart? || e.RagContext? || e.CompressionStart? || e.CompressionEnd?)
    ensures Inv(Apply(s, e, now)) && Extends(s.segments, Apply(s, e, now).segments)
  {
    match e
    case RagStart =>
      var task := Task(Rag, TaskRunning, None);
      PushShape(s.segments, TaskSeg(task));
      AppendTaskStep(s, task, s.tasks.(rag := TaskRunning));
    case RagContext(sources, info) =>
      EnsuredState(s.segments, Rag, Some(Structured(info)));
      EnsureStep(s, Rag, Some(Structured(info)), sources,
                 s.tasks.(rag := TaskCompleted, ragSourceCount := Some(|sources|)));
    case CompressionStart(info) =>
      var task := Task(Compression, TaskRunning, info);
      PushShape(s.segments, TaskSeg(task));
      AppendTaskStep(s, task, s.tasks.(compression := TaskRunning));
    case CompressionEnd(info) =>
      EnsuredState(s.segments, Compression, info);
      EnsureStep(s, Compression, info, s.sources, s.tasks.(compression := TaskCompleted));
  }

  lemma CapKeeps(s: State, content: string)
    requires Inv(s)
    ensures var after := s.(segments := s.segments + [IterationCapSeg] + (if content == "" then [] else [TextSeg(content)]));
            Inv(after) && Extends(s.segments, after.segments)
  {
    var s1 := s.(segments := s.segments + [IterationCapSeg]);
    PushStep(s, IterationCapSeg);
    if content == "" {
      assert s1.segments + [] == s1.segments;
    } else {
      PushStep(s1, TextSeg(content));
    }
  }

  lemma ContentKeeps(s: State, delta: string, now: int)
    requires Inv(s)
    ensures var after := Apply(s, ContentDelta(delta), now);
            Inv(after) && Extends(s.segments, after.segments)
  {
    BeginStep(s);
    TextStep(BeginAnswer(s), delta);
  }

  lemma ToolKeeps(s: State, e: StreamEvent, now: int)
    requires Inv(s) && (e.CallEvent? || e.ResultEvent?)
    ensures Inv(Apply(s, e, now)) && Extends(s.segments, Apply(s, e, now).segments)
  {
    if e.CallEvent? {
      var call := StartedCall(e);
      ToolStep(s, PutCall(call), s.sources, AddCall(s, call).tasks);
    } else {
      var after := AddResult(s, e.result, e.citations);
      ToolStep(s, PutResult(e.result), after.sources, after.tasks);
    }
  }

  lemma NoticeKeeps(s: State, e: StreamEvent, now: int)
    requires Inv(s) && (e.MediaEvent? || e.OutputTruncated? || e.IterationCapReached? || e.OtherEvent?)
    ensures Inv(Apply(s, e, now)) && Extends(s.segments, Apply(s, e, now).segments)
  {
    match e
    case MediaEvent(body, displayed) => if displayed { PushStep(s, MediaSeg(body)); }
    case OutputTruncated => PushStep(s, TruncatedSeg);
    case IterationCapReached(content) => CapKeeps(s, content);
    case OtherEvent =>
  }

  lemma ApplyKeeps(s: State, e: StreamEvent, now: int)
    requires Inv(s)
    ensures Inv(Apply(s, e, now)) && Extends(s.segments, Apply(s, e, now).segments)
  {
    if e.ReasoningStart? || e.ReasoningDelta? || e.ReasoningEnd? {
      ReasoningKeeps(s, e, now);
    } else if e.RagStart? || e.RagContext? || e.CompressionStart? || e.CompressionEnd? {
      TaskKeeps(s, e, now);
    } else if e.CallEvent? || e.ResultEvent? {
      ToolKeeps(s, e, now);
    } else if e.ContentDelta? {
      ContentKeeps(s, e.delta, now);
    } else {
      NoticeKeeps(s, e, now);
    }
  }

  // ---------------------------------------------------------------- finalisation

  lemma SettledSegment(x: Segment, t: TaskType)
    ensures Alike(x, Settle(x)) && ThoughtOf(Settle(x)) == ThoughtOf(x)
    ensures Coherent(x) ==> Coherent(Settle(x))
    ensures IsTask(Settle(x), t) == IsTask(x, t)
    ensures x.TaskSeg? ==> Settle(x).TaskSeg? && Settle(x).task.state == SettleTask(x.task.state)
  {
  }

  lemma SettleTools(segs: seq<Segment>)
    ensures Tools(segs) ==> Tools(SettleAll(segs))
    ensures PlainTools(segs) ==> PlainTools(SettleAll(segs))
  {
    var after := SettleAll(segs);
    forall i | 0 <= i < |segs|
      ensures after[i].ToolSeg? ==> segs[i].ToolSeg? && ToolId(after[i]) == ToolId(segs[i])
      ensures Coherent(segs[i]) ==> Coherent(after[i])
    {
      SettledSegment(segs[i], Rag);
    }
  }

  lemma SettleShape(segs: seq<Segment>, t: TaskType)
    ensures Collect(ThoughtOf, SettleAll(segs)) == Collect(ThoughtOf, segs)
    ensures LatestState(SettleAll(segs), t) == SettleTask(LatestState(segs, t))
    ensures AllAlike(segs, SettleAll(segs))
    ensures Live(segs) ==> Live(SettleAll(segs))
  {
    var after := SettleAll(segs);
    forall i | 0 <= i < |segs|
      ensures Alike(segs[i], after[i]) && ThoughtOf(after[i]) == ThoughtOf(segs[i])
      ensures IsTask(after[i], t) == IsTask(segs[i], t)
      ensures segs[i].TaskSeg? ==> after[i].TaskSeg? && after[i].task.state == SettleTask(segs[i].task.state)
    {
      SettledSegment(segs[i], t);
    }
    CollectPointwise(ThoughtOf, after, segs);
    LatestByTag(segs, after, t);
  }

  lemma FinalizeKeeps(s: State, now: int)
    requires Inv(s)
    ensures Inv(Finalize(s, now)) && Tags(Finalize(s, now).segments) == Tags(s.segments)
  {
    var blocks := FinalBlocks(s.blocks, now);
    var closed := CloseThoughts(s.segments, blocks, |blocks|);
    CloseMirror(s.segments, s.blocks, now, |blocks|);
    assert Closing(s.blocks, blocks, |blocks|) == Numbered(blocks);
    ThoughtEditKeeps(s.segments, closed, Rag);
    ThoughtEditKeeps(s.segments, closed, Generating);
    ThoughtEditKeeps(s.segments, closed, Compression);
    ExtendsEdit(s.segments, closed);
    SettleTools(closed);
    SettleShape(closed, Rag);
    SettleShape(closed, Generating);
    SettleShape(closed, Compression);
    AlikeKeepsText(closed, SettleAll(closed));
  }

  lemma FailCompressionKeeps(s: State)
    requires Inv(s)
    ensures Inv(FailCompression(s)) && TaskEdit(s.segments, FailCompression(s).segments)
    ensures Extends(s.segments, FailCompression(s).segments)
  {
    if s.tasks.compression == TaskRunning {
      TouchShape(s.segments, Compression, TaskError, None);
      FoundIffHeld(s.segments, "", Compression);
      TouchStep(s, Compression, TaskError, None, s.sources, s.tasks.(compression := TaskError));
    }
  }

  lemma FailKeeps(s: State, now: int)
    requires Inv(s)
    ensures Inv(Fail(s, now)) && Extends(s.segments, Fail(s, now).segments)
  {
    FailCompressionKeeps(s);
    FinalizeKeeps(FailCompression(s), now);
  }

  lemma HydrateKeeps(s: State, id: string, input: Payload)
    requires Inv(s)
    ensures Inv(Hydrate(s, id, input)) && Extends(s.segments, Hydrate(s, id, input).segments)
  {
    var call := PlainCall(id, Some("ask_user"), Some("ask_user"), Some(input), Some(Pending));
    var s1 := s;
    if !HasTool(s.segments, id) {
      FoundIffHeld(s.segments, id, Rag);
      UpsertByIndex(s.segments, PutCall(call));
      ToolStep(s, PutCall(call), s.sources, s.tasks);
      s1 := s.(segments := s.segments + [ToolSeg(Some(call), None)]);
    }
    PendingStep(s1, id);
  }

  /** The invariant is kept by every step, and the timeline only grows. */
  lemma StepKeeps(s: State, step: Step, now: int)
    requires Inv(s)
    ensures Inv(Do(s, step, now))
    ensures Extends(s.segments, Do(s, step, now).segments)
  {
    match step
    case Event(e) => ApplyKeeps(s, e, now);
    case Finish => FinalizeKeeps(s, now);
    case Failure => FailKeeps(s, now);
    case Instruct(content) => if content != "" { PushStep(s, InstructionSeg(content)); }
    case AskUser(id) => PendingStep(s, id);
    case Rehydrate(id, input) => HydrateKeeps(s, id, input);
  }

  lemma {:induction false} RunKeeps(s: State, steps: seq<Timed>)
    requires Inv(s)
    ensures Inv(Run(s, steps))
    ensures Extends(s.segments, Run(s, steps).segments)
  {
    if steps != [] {
      var n := |steps| - 1;
      RunKeeps(s, steps[..n]);
      StepKeeps(Run(s, steps[..n]), steps[n].step, steps[n].now);
    }
  }

  lemma EmptyInv()
    ensures Inv(EMPTY_STATE)
  {
    assert Collect(ThoughtOf, []) == Numbered([]);
  }

  lemma {:induction false} RunJoins(s: State, a: seq<Timed>, b: seq<Timed>)
    ensures Run(Run(s, a), b) == Run(s, a + b)
  {
    if b == [] {
      assert a + b == a;
    } else {
      var n := |b| - 1;
      assert b == b[..n] + [b[n]] && a + b == (a + b[..n]) + [b[n]];
      RunJoins(s, a, b[..n]);
      RunPush(s, a + b[..n], b[n]);
      RunPush(Run(s, a), b[..n], b[n]);
    }
  }

  lemma RunPush(s: State, steps: seq<Timed>, last: Timed)
    ensures Run(s, steps + [last]) == Do(Run(s, steps), last.step, last.now)
  {
    assert (steps + [last])[..|steps|] == steps;
  }
}
