/** Theorems about whole runs of session steps: no streamed character is lost, reasoning
    segments mirror the blocks, finalising leaves nothing open, settled calls stay settled.
  */
module StreamTheorems {
  import opened Options
  import opened ChatParts
  import opened Timeline
  import opened TimelineFacts
  import opened StreamInvariants
  import opened StreamSteps

  // ---------------------------------------------------------------- streamed text

  function TextOf(seg: Segment): string {
    if seg.TextSeg? then seg.text else ""
  }

  function Texts(segs: seq<Segment>): string {
    Collect(TextOf, segs)
  }

  /** The characters a step adds to the answer. */
  function Emitted(step: Step): string {
    match step
    case Event(ContentDelta(delta)) => delta
    case Event(IterationCapReached(content)) => content
    case _ => ""
  }

  function EmittedAll(steps: seq<Timed>): string {
    if steps == [] then "" else EmittedAll(steps[..|steps| - 1]) + Emitted(steps[|steps| - 1].step)
  }

  /** The text parts of a rendering, joined. */
  function ShownText(parts: seq<Part>): string {
    if parts == [] then "" else (if parts[0].TextPart? then parts[0].text else "") + ShownText(parts[1..])
  }

  lemma EditText(a: seq<Segment>, b: seq<Segment>)
    requires ToolEdit(a, b) || TaskEdit(a, b) || ThoughtEdit(a, b) || AllAlike(a, b)
    ensures Texts(a) == Texts(b)
  {
    forall i | 0 <= i < |a|
      ensures TextOf(a[i]) == TextOf(b[i])
    {
      assert AllAlike(a, b) ==> Alike(a[i], b[i]);
    }
    CollectPointwise(TextOf, a, b);
  }

  lemma EnsureText(segs: seq<Segment>, t: TaskType, info: Option<Info>)
    ensures Texts(EnsureTask(segs, t, TaskCompleted, info)) == Texts(segs)
  {
    TouchShape(segs, t, TaskCompleted, info);
    EditText(segs, TouchLatest(segs, t, TaskCompleted, info));
    CollectPush(TextOf, segs, TaskSeg(Task(t, TaskCompleted, info)));
  }

  lemma UpsertText(segs: seq<Segment>, p: ToolPatch)
    ensures Texts(Upsert(segs, p)) == Texts(segs)
  {
    UpsertByIndex(segs, p);
    var k := FindTool(segs, p.Id());
    if k < |segs| {
      CollectSame(TextOf, segs, k, p.Patched(segs[k]));
    } else {
      CollectPush(TextOf, segs, p.Opened());
    }
  }

  lemma PatchText(segs: seq<Segment>, n: int, p: ThoughtPatch)
    ensures Texts(PatchThought(segs, n, p)) == Texts(segs)
  {
    PatchThoughtByIndex(segs, n, p);
    var k := FindThought(segs, n);
    if k < |segs| {
      CollectSame(TextOf, segs, k, Rethink(segs[k], p));
    }
  }

  lemma AppendTextText(segs: seq<Segment>, delta: string)
    ensures Texts(AppendText(segs, delta)) == Texts(segs) + delta
  {
    if EndsInText(segs) {
      var n := |segs| - 1;
      assert segs == segs[..n] + [segs[n]];
      CollectPush(TextOf, segs[..n], segs[n]);
      CollectPush(TextOf, segs[..n], TextSeg(segs[n].text + delta));
    } else {
      CollectPush(TextOf, segs, TextSeg(delta));
    }
  }

  lemma BeginText(s: State)
    ensures Texts(BeginAnswer(s).segments) == Texts(s.segments)
  {
    if s.tasks.generating == TaskPending {
      var touched := TouchLatest(s.segments, Rag, TaskCompleted, None);
      TouchShape(s.segments, Rag, TaskCompleted, None);
      EditText(s.segments, touched);
      CollectPush(TextOf, s.segments, TaskSeg(Task(Generating, TaskRunning, None)));
      CollectPush(TextOf, touched, TaskSeg(Task(Generating, TaskRunning, None)));
    }
  }

  lemma CapText(s: State, content: string)
    ensures Texts(Apply(s, IterationCapReached(content), 0).segments) == Texts(s.segments) + content
  {
    CollectPush(TextOf, s.segments, IterationCapSeg);
    var capped := s.segments + [IterationCapSeg];
    assert capped + [] == capped;
    CollectPush(TextOf, capped, TextSeg(content));
  }

  lemma ApplyText(s: State, e: StreamEvent, now: int)
    ensures Texts(Apply(s, e, now).segments) == Texts(s.segments) + Emitted(Event(e))
  {
    match e
    case ReasoningDelta(delta) =>
      var s1 := if ThoughtOpen(s) then s else OpenThought(s, now);
      CollectPush(TextOf, s.segments, ReasoningSeg(|s.blocks|, "", true, now, None));
      PatchText(s1.segments, s1.current, Growth(s1, delta));
    case ReasoningEnd =>
      if ThoughtOpen(s) {
        PatchText(s.segments, s.current, Closure(s, now));
      }
    case ContentDelta(delta) =>
      BeginText(s);
      AppendTextText(BeginAnswer(s).segments, delta);
    case RagContext(sources, info) => EnsureText(s.segments, Rag, Some(Structured(info)));
    case CompressionEnd(info) => EnsureText(s.segments, Compression, info);
    case CallEvent(_, _, _, _) => UpsertText(s.segments, PutCall(StartedCall(e)));
    case ResultEvent(result, citations) => UpsertText(s.segments, PutResult(result));
    case IterationCapReached(content) => CapText(s, content);
    case RagStart => CollectPush(TextOf, s.segments, TaskSeg(Task(Rag, TaskRunning, None)));
    case ReasoningStart => CollectPush(TextOf, s.segments, ReasoningSeg(|s.blocks|, "", true, now, None));
    case CompressionStart(info) => CollectPush(TextOf, s.segments, TaskSeg(Task(Compression, TaskRunning, info)));
    case MediaEvent(body, displayed) => CollectPush(TextOf, s.segments, MediaSeg(body));
    case OutputTruncated => CollectPush(TextOf, s.segments, TruncatedSeg);
    case OtherEvent =>
  }

  lemma {:induction false} CloseText(segs: seq<Segment>, blocks: seq<Block>, n: nat)
    requires n <= |blocks|
    ensures Texts(CloseThoughts(segs, blocks, n)) == Texts(segs)
  {
    if n > 0 {
      CloseText(segs, blocks, n - 1);
      PatchText(CloseThoughts(segs, blocks, n - 1), n - 1, Close(blocks[n - 1].text, blocks[n - 1].duration));
    }
  }

  lemma FinalizeText(s: State, now: int)
    ensures Texts(Finalize(s, now).segments) == Texts(s.segments)
  {
    var blocks := FinalBlocks(s.blocks, now);
    CloseText(s.segments, blocks, |blocks|);
    SettleShape(CloseThoughts(s.segments, blocks, |blocks|), Rag);
    EditText(CloseThoughts(s.segments, blocks, |blocks|), Finalize(s, now).segments);
  }

  lemma PendingText(segs: seq<Segment>, id: string)
    ensures Texts(MarkPending(segs, id)) == Texts(segs)
  {
    MarkPendingByIndex(segs, id);
    var k := FindTool(segs, id);
    if k < |segs| && Askable(segs[k]) {
      CollectSame(TextOf, segs, k, Awaiting(segs[k]));
    }
  }

  /** In any state, a step adds exactly the characters it carries, at the end. */
  lemma StepText(s: State, step: Step, now: int)
    ensures Texts(Do(s, step, now).segments) == Texts(s.segments) + Emitted(step)
  {
    match step
    case Event(e) => ApplyText(s, e, now);
    case Finish => FinalizeText(s, now);
    case Failure =>
      TouchShape(s.segments, Compression, TaskError, None);
      EditText(s.segments, TouchLatest(s.segments, Compression, TaskError, None));
      FinalizeText(FailCompression(s), now);
    case Instruct(content) => CollectPush(TextOf, s.segments, InstructionSeg(content));
    case AskUser(id) => PendingText(s.segments, id);
    case Rehydrate(id, input) =>
      var call := PlainCall(id, Some("ask_user"), Some("ask_user"), Some(input), Some(Pending));
      CollectPush(TextOf, s.segments, ToolSeg(Some(call), None));
      PendingText(s.segments, id);
      PendingText(s.segments + [ToolSeg(Some(call), None)], id);
  }

  lemma {:induction false} RunText(s: State, steps: seq<Timed>)
    ensures Texts(Run(s, steps).segments) == Texts(s.segments) + EmittedAll(steps)
  {
    if steps != [] {
      var n := |steps| - 1;
      RunText(s, steps[..n]);
      StepText(Run(s, steps[..n]), steps[n].step, steps[n].now);
    }
  }

  lemma {:induction false} ShownAppend(a: seq<Part>, b: seq<Part>)
    ensures ShownText(a + b) == ShownText(a) + ShownText(b)
  {
    if a == [] {
      assert a + b == b;
    } else {
      assert (a + b)[1..] == a[1..] + b;
      ShownAppend(a[1..], b);
    }
  }

  lemma {:induction false} FooterShowsNoText(sources: seq<Source>)
    ensures ShownText(Footer(sources)) == ""
  {
    if sources != [] {
      assert Footer(sources)[1..] == Footer(sources[1..]);
      FooterShowsNoText(sources[1..]);
    }
  }

  lemma {:induction false} RenderText(segs: seq<Segment>, streaming: bool)
    ensures ShownText(Render(segs, streaming)) == Texts(segs)
  {
    if segs != [] {
      RenderText(segs[1..], streaming);
      ShownAppend(PartsOf(segs[0], streaming), Render(segs[1..], streaming));
      assert ShownText(PartsOf(segs[0], streaming)) == TextOf(segs[0]);
    }
  }

  lemma BuildText(s: State, streaming: bool)
    ensures ShownText(Build(s, streaming)) == Texts(s.segments)
  {
    RenderText(s.segments, streaming);
    FooterShowsNoText(s.sources);
    ShownAppend(Render(s.segments, streaming), if streaming then [] else Footer(s.sources));
  }

  /** The text a session shows is the text its run streamed, character for character. */
  lemma {:induction false} StreamedTextIsShown(steps: seq<Timed>, streaming: bool)
    ensures ShownText(Build(Run(EMPTY_STATE, steps), streaming)) == EmittedAll(steps)
  {
    RunText(EMPTY_STATE, steps);
    BuildText(Run(EMPTY_STATE, steps), streaming);
  }

  // ---------------------------------------------------------------- reasoning

  function Thinking(blocks: seq<Block>): string {
    if blocks == [] then "" else Thinking(blocks[..|blocks| - 1]) + blocks[|blocks| - 1].text
  }

  function Pondered(step: Step): string {
    if step.Event? && step.event.ReasoningDelta? then step.event.delta else ""
  }

  function PonderedAll(steps: seq<Timed>): string {
    if steps == [] then "" else PonderedAll(steps[..|steps| - 1]) + Pondered(steps[|steps| - 1].step)
  }

  function ShownReasoning(parts: seq<Part>): string {
    if parts == [] then "" else (if parts[0].ReasoningPart? then parts[0].text else "") + ShownReasoning(parts[1..])
  }

  lemma {:induction false} FinalThinking(blocks: seq<Block>, now: int)
    ensures Thinking(FinalBlocks(blocks, now)) == Thinking(blocks)
  {
    if blocks != [] {
      var n := |blocks| - 1;
      assert FinalBlocks(blocks, now)[..n] == FinalBlocks(blocks[..n], now);
      FinalThinking(blocks[..n], now);
    }
  }

  lemma StepThinking(s: State, step: Step, now: int)
    requires OnLastBlock(s)
    ensures Thinking(Do(s, step, now).blocks) == Thinking(s.blocks) + Pondered(step)
  {
    match step
    case Finish => FinalThinking(s.blocks, now);
    case Failure => FinalThinking(s.blocks, now);
    case Event(e) =>
      if e.ReasoningStart? || e.ReasoningDelta? || e.ReasoningEnd? {
        ReasoningThinking(s, e, now);
      } else {
        SameBlocks(s, e, now);
      }
    case _ =>
  }

  lemma SameBlocks(s: State, e: StreamEvent, now: int)
    requires !e.ReasoningStart? && !e.ReasoningDelta? && !e.ReasoningEnd?
    ensures Apply(s, e, now).blocks == s.blocks && Pondered(Event(e)) == ""
  {
  }

  lemma ReasoningThinking(s: State, e: StreamEvent, now: int)
    requires OnLastBlock(s) && (e.ReasoningStart? || e.ReasoningDelta? || e.ReasoningEnd?)
    ensures Thinking(Apply(s, e, now).blocks) == Thinking(s.blocks) + Pondered(Event(e))
  {
    match e
    case ReasoningStart =>
      assert OpenThought(s, now).blocks[..|s.blocks|] == s.blocks;
    case ReasoningDelta(delta) =>
      var s1 := if ThoughtOpen(s) then s else OpenThought(s, now);
      assert !ThoughtOpen(s) ==> s1.blocks[..|s.blocks|] == s.blocks;
      var n := |s1.blocks| - 1;
      assert Apply(s, e, now).blocks[..n] == s1.blocks[..n];
    case ReasoningEnd =>
      if ThoughtOpen(s) {
        var n := |s.blocks| - 1;
        assert Apply(s, e, now).blocks[..n] == s.blocks[..n];
      }
  }

  lemma {:induction false} RunThinking(steps: seq<Timed>)
    ensures Thinking(Run(EMPTY_STATE, steps).blocks) == PonderedAll(steps)
  {
    if steps != [] {
      var n := |steps| - 1;
      RunThinking(steps[..n]);
      EmptyInv();
      RunKeeps(EMPTY_STATE, steps[..n]);
      StepThinking(Run(EMPTY_STATE, steps[..n]), steps[n].step, steps[n].now);
    }
  }

  function ItemText(items: seq<Thought>): string {
    if items == [] then "" else items[0].1.text + ItemText(items[1..])
  }

  lemma {:induction false} ItemTextAppend(a: seq<Thought>, b: seq<Thought>)
    ensures ItemText(a + b) == ItemText(a) + ItemText(b)
  {
    if a == [] {
      assert a + b == b;
    } else {
      assert (a + b)[1..] == a[1..] + b;
      ItemTextAppend(a[1..], b);
    }
  }

  lemma {:induction false} NumberedText(blocks: seq<Block>)
    ensures ItemText(Numbered(blocks)) == Thinking(blocks)
  {
    if blocks != [] {
      var n := |blocks| - 1;
      NumberedText(blocks[..n]);
      assert Numbered(blocks) == Numbered(blocks[..n]) + [(n, blocks[n])];
      ItemTextAppend(Numbered(blocks[..n]), [(n, blocks[n])]);
    }
  }

  lemma {:induction false} ShownReasoningAppend(a: seq<Part>, b: seq<Part>)
    ensures ShownReasoning(a + b) == ShownReasoning(a) + ShownReasoning(b)
  {
    if a == [] {
      assert a + b == b;
    } else {
      assert (a + b)[1..] == a[1..] + b;
      ShownReasoningAppend(a[1..], b);
    }
  }

  lemma SegmentReasoning(seg: Segment, streaming: bool)
    ensures ShownReasoning(PartsOf(seg, streaming)) == ItemText(ThoughtOf(seg))
  {
    assert ItemText([]) == "";
    if seg.ToolSeg? {
      ShownReasoningAppend(if seg.call.Some? then [CallPart(seg.call.value)] else [],
                           if seg.result.Some? then [ResultPart(seg.result.value)] else []);
    }
  }

  lemma {:induction false} RenderReasoning(segs: seq<Segment>, streaming: bool)
    ensures ShownReasoning(Render(segs, streaming)) == ItemText(Collect(ThoughtOf, segs))
  {
    if segs != [] {
      RenderReasoning(segs[1..], streaming);
      ShownReasoningAppend(PartsOf(segs[0], streaming), Render(segs[1..], streaming));
      SegmentReasoning(segs[0], streaming);
      ItemTextAppend(ThoughtOf(segs[0]), Collect(ThoughtOf, segs[1..]));
    }
  }

  /** In every reachable state reasoning segments and blocks are in one-to-one order, the open
      block is the last one, and the reasoning shown is what was streamed, early or late. */
  lemma {:induction false} ReasoningIsMirrored(steps: seq<Timed>, streaming: bool)
    ensures var s := Run(EMPTY_STATE, steps);
            && Mirror(s.segments, s.blocks)
            && (s.current == -1 || s.current == |s.blocks| - 1)
            && ShownReasoning(Render(s.segments, streaming)) == Thinking(s.blocks) == PonderedAll(steps)
  {
    var s := Run(EMPTY_STATE, steps);
    EmptyInv();
    RunKeeps(EMPTY_STATE, steps);
    RunThinking(steps);
    RenderReasoning(s.segments, streaming);
    NumberedText(s.blocks);
  }

  // ---------------------------------------------------------------- finalisation

  /** Nothing is running or streaming anywhere. */
  predicate Quiet(s: State) {
    && (forall i :: 0 <= i < |s.segments| ==> QuietSegment(s.segments[i]))
    && (forall b :: b in s.blocks ==> !b.streaming)
    && s.tasks == SettleTable(s.tasks)
    && s.current == -1
  }

  predicate QuietSegment(seg: Segment) {
    && (seg.ToolSeg? && seg.call.Some? ==> seg.call.value.state != Some(Running))
    && (seg.TaskSeg? ==> seg.task.state != TaskRunning)
    && (seg.ReasoningSeg? ==> !seg.streaming)
  }

  lemma {:induction false} ThoughtListed(segs: seq<Segment>, i: nat)
    requires i < |segs| && segs[i].ReasoningSeg?
    ensures ThoughtOf(segs[i])[0] in Collect(ThoughtOf, segs)
  {
    if i > 0 {
      ThoughtListed(segs[1..], i - 1);
    }
  }

  lemma FinalizeQuiets(s: State, now: int)
    requires Inv(s)
    ensures Quiet(Finalize(s, now))
  {
    var f := Finalize(s, now);
    FinalizeKeeps(s, now);
    forall i | 0 <= i < |f.segments|
      ensures QuietSegment(f.segments[i])
    {
      if f.segments[i].ReasoningSeg? {
        ThoughtListed(f.segments, i);
      }
    }
  }

  lemma {:induction false} CloseQuiet(segs: seq<Segment>, blocks: seq<Block>, n: nat)
    requires Mirror(segs, blocks) && n <= |blocks|
    requires forall b :: b in blocks ==> !b.streaming
    ensures CloseThoughts(segs, blocks, n) == segs
  {
    if n > 0 {
      CloseQuiet(segs, blocks, n - 1);
      PatchThoughtByIndex(segs, n - 1, Close(blocks[n - 1].text, blocks[n - 1].duration));
      ThoughtPosition(segs, Numbered(blocks), n - 1);
      assert blocks[n - 1] in blocks;
    }
  }

  lemma QuietIsFixed(s: State, now: int)
    requires Inv(s) && Quiet(s)
    ensures Finalize(s, now) == s
  {
    assert FinalBlocks(s.blocks, now) == s.blocks;
    CloseQuiet(s.segments, s.blocks, |s.blocks|);
    assert forall i :: 0 <= i < |s.segments| ==> QuietSegment(s.segments[i]);
    assert SettleAll(s.segments) == s.segments;
  }

  /** Finalising after any run leaves nothing open, keeps text, tags and order, and finalising
      again changes nothing. */
  lemma {:induction false} FinalizeSettles(steps: seq<Timed>, now: int, later: int)
    ensures var s := Run(EMPTY_STATE, steps);
            var f := Finalize(s, now);
            && Quiet(f) && Finalize(f, later) == f
            && Tags(f.segments) == Tags(s.segments)
            && Texts(f.segments) == Texts(s.segments) && Thinking(f.blocks) == Thinking(s.blocks)
            && f.sources == s.sources
  {
    var s := Run(EMPTY_STATE, steps);
    EmptyInv();
    RunKeeps(EMPTY_STATE, steps);
    FinalizeKeeps(s, now);
    FinalizeQuiets(s, now);
    QuietIsFixed(Finalize(s, now), later);
    FinalizeText(s, now);
    FinalThinking(s.blocks, now);
  }

  /** Whatever happens next, the tags of a reachable timeline stay where they are. */
  lemma {:induction false} TimelineOnlyGrows(before: seq<Timed>, after: seq<Timed>)
    ensures Tags(Run(EMPTY_STATE, before).segments) <= Tags(Run(EMPTY_STATE, before + after).segments)
  {
    EmptyInv();
    RunKeeps(EMPTY_STATE, before);
    RunKeeps(Run(EMPTY_STATE, before), after);
    RunJoins(EMPTY_STATE, before, after);
  }
}
