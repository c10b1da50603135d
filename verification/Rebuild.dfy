/** A state rebuilt from the parts it renders behaves like the state it came from, and
    normalising parts through a state is a fixpoint.
  */
module Rebuild {
  import opened Options
  import opened ChatParts
  import opened Timeline
  import opened TimelineFacts
  import opened StreamInvariants
  import opened StreamSteps
  import opened StreamTheorems

  // ---------------------------------------------------------------- what a message remembers

  /** Segments that leave a trace in the message. */
  predicate Visible(seg: Segment) {
    && seg != TextSeg("") && seg != InstructionSeg("") && seg != ToolSeg(None, None)
  }

  /** A visible segment, without the start time of a thought older than block `b`. */
  function CoreOf(seg: Segment, b: nat): seq<Segment> {
    if !Visible(seg) then []
    else if seg.ReasoningSeg? && seg.index < b then [seg.(startTime := 0)]
    else [seg]
  }

  function Core(segs: seq<Segment>, b: nat): seq<Segment> {
    if segs == [] then [] else CoreOf(segs[0], b) + Core(segs[1..], b)
  }

  lemma {:induction false} CoreAppend(a: seq<Segment>, c: seq<Segment>, b: nat)
    ensures Core(a + c, b) == Core(a, b) + Core(c, b)
  {
    if a == [] {
      assert a + c == c;
    } else {
      assert (a + c)[1..] == a[1..] + c;
      CoreAppend(a[1..], c, b);
    }
  }

  lemma CorePush(a: seq<Segment>, x: Segment, b: nat)
    ensures Core(a + [x], b) == Core(a, b) + CoreOf(x, b)
  {
    CoreAppend(a, [x], b);
    assert Core([x], b) == CoreOf(x, b) + Core([], b);
  }

  // ---------------------------------------------------------------- updates act on the core

  lemma {:induction false} CoreUpsert(segs: seq<Segment>, p: ToolPatch, b: nat)
    ensures Core(Upsert(segs, p), b) == Upsert(Core(segs, b), p)
  {
    if segs == [] {
      CorePush([], p.Opened(), b);
    } else if Holds(segs[0], p.Id()) {
      assert Core(segs, b)[0] == segs[0] && Core(segs, b)[1..] == Core(segs[1..], b);
      assert Upsert(segs, p)[1..] == segs[1..];
    } else {
      CoreUpsert(segs[1..], p, b);
      var rest := Core(segs[1..], b);
      if Visible(segs[0]) {
        assert Core(segs, b)[1..] == rest && !Holds(Core(segs, b)[0], p.Id());
      } else {
        assert Core(segs, b) == rest;
      }
      assert Upsert(segs, p)[1..] == Upsert(segs[1..], p);
    }
  }

  lemma {:induction false} CoreMarkPending(segs: seq<Segment>, id: string, b: nat)
    ensures Core(MarkPending(segs, id), b) == MarkPending(Core(segs, b), id)
  {
    if segs != [] {
      var rest := Core(segs[1..], b);
      if Holds(segs[0], id) {
        assert Core(segs, b)[0] == segs[0] && Core(segs, b)[1..] == rest;
        assert MarkPending(segs, id)[1..] == segs[1..];
      } else {
        CoreMarkPending(segs[1..], id, b);
        assert MarkPending(segs, id)[1..] == MarkPending(segs[1..], id);
        if Visible(segs[0]) {
          assert Core(segs, b)[1..] == rest && !Holds(Core(segs, b)[0], id);
        } else {
          assert Core(segs, b) == rest;
        }
      }
    }
  }

  lemma {:induction false} CorePatch(segs: seq<Segment>, k: int, p: ThoughtPatch, b: nat)
    ensures Core(PatchThought(segs, k, p), b) == PatchThought(Core(segs, b), k, p)
  {
    if segs != [] {
      var rest := Core(segs[1..], b);
      if IsThought(segs[0], k) {
        assert Core(segs, b)[1..] == rest;
        assert PatchThought(segs, k, p)[1..] == segs[1..];
      } else {
        CorePatch(segs[1..], k, p, b);
        assert PatchThought(segs, k, p)[1..] == PatchThought(segs[1..], k, p);
        if Visible(segs[0]) {
          assert Core(segs, b)[1..] == rest && !IsThought(Core(segs, b)[0], k);
        } else {
          assert Core(segs, b) == rest;
        }
      }
    }
  }

  lemma {:induction false} CoreTouch(segs: seq<Segment>, t: TaskType, state: TaskState, info: Option<Info>, b: nat)
    ensures Core(TouchLatest(segs, t, state, info), b) == TouchLatest(Core(segs, b), t, state, info)
  {
    if segs != [] {
      var front, last := segs[..|segs| - 1], segs[|segs| - 1];
      assert segs == front + [last];
      CorePush(front, last, b);
      if IsTask(last, t) {
        CorePush(front, TaskSeg(Retask(last.task, state, info)), b);
      } else {
        CoreTouch(front, t, state, info, b);
        CorePush(TouchLatest(front, t, state, info), last, b);
      }
      TouchPushed(Core(front, b), CoreOf(last, b), t, state, info);
    }
  }

  lemma TouchPushed(core: seq<Segment>, tail: seq<Segment>, t: TaskType, state: TaskState, info: Option<Info>)
    requires |tail| <= 1
    ensures TouchLatest(core + tail, t, state, info)
            == if tail != [] && IsTask(tail[0], t) then core + [TaskSeg(Retask(tail[0].task, state, info))]
               else TouchLatest(core, t, state, info) + tail
  {
    if tail == [] {
      assert core + tail == core;
      assert TouchLatest(core, t, state, info) + tail == TouchLatest(core, t, state, info);
    } else {
      assert (core + tail)[..|core|] == core && tail == [tail[0]];
    }
  }

  lemma {:induction false} CoreSettle(segs: seq<Segment>, b: nat)
    ensures Core(SettleAll(segs), b) == SettleAll(Core(segs, b))
  {
    if segs != [] {
      CoreSettle(segs[1..], b);
      assert SettleAll(segs)[1..] == SettleAll(segs[1..]);
      var rest := Core(segs[1..], b);
      assert SettleAll(Core(segs, b)) == SettleAll(CoreOf(segs[0], b)) + SettleAll(rest);
      assert CoreOf(Settle(segs[0]), b) == SettleAll(CoreOf(segs[0], b));
    }
  }

  lemma {:induction false} CoreHas(segs: seq<Segment>, t: TaskType, id: string, b: nat)
    ensures HasTask(Core(segs, b), t) <==> HasTask(segs, t)
    ensures HasTool(Core(segs, b), id) <==> HasTool(segs, id)
  {
    if segs != [] {
      var head, rest := CoreOf(segs[0], b), Core(segs[1..], b);
      CoreHas(segs[1..], t, id, b);
      assert segs == [segs[0]] + segs[1..];
      assert HasTask(head, t) <==> IsTask(segs[0], t);
      assert HasTool(head, id) <==> Holds(segs[0], id);
      HasSplits(head, rest, t, id);
      HasSplits([segs[0]], segs[1..], t, id);
    }
  }

  lemma HasSplits(a: seq<Segment>, c: seq<Segment>, t: TaskType, id: string)
    ensures HasTask(a + c, t) <==> HasTask(a, t) || HasTask(c, t)
    ensures HasTool(a + c, id) <==> HasTool(a, id) || HasTool(c, id)
  {
    assert forall seg :: seg in a + c <==> seg in a || seg in c;
  }

  function CoreText(core: seq<Segment>, delta: string): seq<Segment> {
    if delta == "" then core else AppendText(core, delta)
  }

  /** Appending text acts on the core, because an empty text segment never follows another text. */
  lemma CoreAppendText(segs: seq<Segment>, delta: string, b: nat)
    requires TextShape(segs) && Tools(segs)
    ensures Core(AppendText(segs, delta), b) == CoreText(Core(segs, b), delta)
  {
    if EndsInText(segs) {
      var n := |segs| - 1;
      assert segs == segs[..n] + [TextSeg(segs[n].text)];
      assert !EndsInText(segs[..n]);
      CoreEnd(segs[..n], b);
      CoreGrowText(segs[..n], segs[n].text, delta, b);
    } else {
      CoreEnd(segs, b);
      CorePush(segs, TextSeg(delta), b);
    }
  }

  lemma CoreGrowText(front: seq<Segment>, text: string, delta: string, b: nat)
    requires !EndsInText(Core(front, b))
    ensures Core(front + [TextSeg(text + delta)], b) == CoreText(Core(front + [TextSeg(text)], b), delta)
  {
    CorePush(front, TextSeg(text), b);
    CorePush(front, TextSeg(text + delta), b);
    GrowPushed(Core(front, b), text, delta);
    assert CoreOf(TextSeg(text), b) == Shown(text) && CoreOf(TextSeg(text + delta), b) == Shown(text + delta);
  }

  function Shown(text: string): seq<Segment> {
    if text == "" then [] else [TextSeg(text)]
  }

  lemma GrowPushed(core: seq<Segment>, text: string, delta: string)
    requires !EndsInText(core)
    ensures core + Shown(text + delta) == CoreText(core + Shown(text), delta)
  {
    if text == "" {
      assert text + delta == delta && core + [] == core;
    } else if delta == "" {
      assert text + delta == text;
    } else {
      assert (core + [TextSeg(text)])[..|core|] == core;
    }
  }

  /** A timeline that does not end in text has a core that does not. */
  lemma CoreEnd(segs: seq<Segment>, b: nat)
    requires TextShape(segs) && forall i :: 0 <= i < |segs| ==> Coherent(segs[i])
    ensures !EndsInText(segs) ==> !EndsInText(Core(segs, b))
  {
    if segs != [] && !EndsInText(segs) {
      var n := |segs| - 1;
      assert segs == segs[..n] + [segs[n]];
      CorePush(segs[..n], segs[n], b);
      assert Coherent(segs[n]);
      assert Visible(segs[n]);
    }
  }

  lemma {:induction false} CoreRender(segs: seq<Segment>, streaming: bool, b: nat)
    ensures Render(Core(segs, b), streaming) == Render(segs, streaming)
  {
    if segs != [] {
      CoreRender(segs[1..], streaming, b);
      RenderAppend(CoreOf(segs[0], b), Core(segs[1..], b), streaming);
      if Visible(segs[0]) {
        RenderPush([], CoreOf(segs[0], b)[0], streaming);
        assert [] + CoreOf(segs[0], b) == CoreOf(segs[0], b);
      }
    }
  }

  // ---------------------------------------------------------------- similar states stay similar

  predicate BlocksAlike(x: seq<Block>, y: seq<Block>, b: nat) {
    && |x| == |y| && b <= |x|
    && (forall k :: b <= k < |x| ==> x[k] == y[k])
    && (forall k :: 0 <= k < b ==> !x[k].streaming && y[k] == x[k].(startTime := y[k].startTime))
  }

  /** The states agree on everything but start times of old thoughts and empty text segments. */
  predicate SameCore(s: State, r: State, b: nat) {
    && Core(s.segments, b) == Core(r.segments, b)
    && BlocksAlike(s.blocks, r.blocks, b)
    && s.current == r.current && (s.current == -1 || b <= s.current)
    && s.sources == r.sources
    && s.tasks.rag == r.tasks.rag && s.tasks.generating == r.tasks.generating
    && s.tasks.compression == r.tasks.compression
  }

  predicate Similar(s: State, r: State, b: nat) {
    Inv(s) && Inv(r) && SameCore(s, r, b)
  }

  lemma SimilarRenders(s: State, r: State, b: nat, streaming: bool)
    requires Similar(s, r, b)
    ensures Build(s, streaming) == Build(r, streaming)
  {
    CoreRender(s.segments, streaming, b);
    CoreRender(r.segments, streaming, b);
  }

  lemma SimilarOpens(s: State, r: State, b: nat, now: int)
    requires Similar(s, r, b)
    ensures SameCore(OpenThought(s, now), OpenThought(r, now), b)
  {
    var x := ReasoningSeg(|s.blocks|, "", true, now, None);
    CorePush(s.segments, x, b);
    CorePush(r.segments, x, b);
  }

  lemma SimilarEdit(s: State, r: State, p: ThoughtPatch, b: nat)
    requires SameCore(s, r, b) && ThoughtOpen(s)
    ensures SameCore(EditThought(s, p), EditThought(r, p), b)
  {
    CorePatch(s.segments, s.current, p, b);
    CorePatch(r.segments, r.current, p, b);
  }

  lemma SimilarGrow(s: State, r: State, b: nat, delta: string)
    requires SameCore(s, r, b) && ThoughtOpen(s)
    ensures SameCore(GrowThought(s, delta), GrowThought(r, delta), b)
  {
    SimilarEdit(s, r, Growth(s, delta), b);
  }

  lemma SimilarEnd(s: State, r: State, b: nat, now: int)
    requires SameCore(s, r, b) && ThoughtOpen(s)
    ensures SameCore(EndThought(s, now), EndThought(r, now), b)
  {
    SimilarEdit(s, r, Closure(s, now), b);
  }

  lemma SimilarReasoning(s: State, r: State, b: nat, e: StreamEvent, now: int)
    requires Similar(s, r, b) && (e.ReasoningStart? || e.ReasoningDelta? || e.ReasoningEnd?)
    ensures SameCore(Apply(s, e, now), Apply(r, e, now), b)
  {
    match e
    case ReasoningStart => SimilarOpens(s, r, b, now);
    case ReasoningDelta(delta) =>
      if ThoughtOpen(s) {
        SimilarGrow(s, r, b, delta);
      } else {
        SimilarOpens(s, r, b, now);
        OpenStep(s, now);
        OpenStep(r, now);
        SimilarGrow(OpenThought(s, now), OpenThought(r, now), b, delta);
      }
    case ReasoningEnd =>
      if ThoughtOpen(s) {
        SimilarEnd(s, r, b, now);
      }
  }

  lemma SimilarBegins(s: State, r: State, b: nat)
    requires SameCore(s, r, b)
    ensures SameCore(BeginAnswer(s), BeginAnswer(r), b)
  {
    CoreTouch(s.segments, Rag, TaskCompleted, None, b);
    CoreTouch(r.segments, Rag, TaskCompleted, None, b);
    var x := TaskSeg(Task(Generating, TaskRunning, None));
    CorePush(s.segments, x, b);
    CorePush(r.segments, x, b);
    CorePush(TouchLatest(s.segments, Rag, TaskCompleted, None), x, b);
    CorePush(TouchLatest(r.segments, Rag, TaskCompleted, None), x, b);
  }

  lemma SimilarAppend(s: State, r: State, b: nat, delta: string)
    requires SameCore(s, r, b)
    requires TextShape(s.segments) && Tools(s.segments) && TextShape(r.segments) && Tools(r.segments)
    ensures SameCore(s.(segments := AppendText(s.segments, delta)), r.(segments := AppendText(r.segments, delta)), b)
  {
    CoreAppendText(s.segments, delta, b);
    CoreAppendText(r.segments, delta, b);
  }

  lemma BegunText(s: State)
    requires Inv(s)
    ensures TextShape(BeginAnswer(s).segments) && Tools(BeginAnswer(s).segments)
  {
    BeginStep(s);
  }

  lemma {:induction false} SimilarText(s: State, r: State, b: nat, delta: string)
    requires Similar(s, r, b)
    ensures SameCore(Apply(s, ContentDelta(delta), 0), Apply(r, ContentDelta(delta), 0), b)
  {
    BegunText(s);
    BegunText(r);
    SimilarBegins(s, r, b);
    SimilarAppend(BeginAnswer(s), BeginAnswer(r), b, delta);
  }

  lemma CoreEnsure(segs: seq<Segment>, t: TaskType, info: Option<Info>, b: nat)
    ensures Core(EnsureTask(segs, t, TaskCompleted, info), b) == EnsureTask(Core(segs, b), t, TaskCompleted, info)
  {
    CoreHas(segs, t, "", b);
    CoreTouch(segs, t, TaskCompleted, info, b);
    CorePush(segs, TaskSeg(Task(t, TaskCompleted, info)), b);
  }

  lemma SimilarTasks(s: State, r: State, b: nat, e: StreamEvent, now: int)
    requires Similar(s, r, b) && (e.RagStart? || e.RagContext? || e.CompressionStart? || e.CompressionEnd?)
    ensures SameCore(Apply(s, e, now), Apply(r, e, now), b)
  {
    if e.RagStart? || e.CompressionStart? {
      SimilarTaskStart(s, r, b, e, now);
    } else {
      SimilarTaskEnd(s, r, b, e, now);
    }
  }

  lemma SimilarTaskStart(s: State, r: State, b: nat, e: StreamEvent, now: int)
    requires SameCore(s, r, b) && (e.RagStart? || e.CompressionStart?)
    ensures SameCore(Apply(s, e, now), Apply(r, e, now), b)
  {
    var task := if e.RagStart? then Task(Rag, TaskRunning, None) else Task(Compression, TaskRunning, e.info);
    CorePush(s.segments, TaskSeg(task), b);
    CorePush(r.segments, TaskSeg(task), b);
  }

  lemma SimilarTaskEnd(s: State, r: State, b: nat, e: StreamEvent, now: int)
    requires SameCore(s, r, b) && (e.RagContext? || e.CompressionEnd?)
    ensures SameCore(Apply(s, e, now), Apply(r, e, now), b)
  {
    var t, info := if e.RagContext? then Rag else Compression, if e.RagContext? then Some(Structured(e.found)) else e.info;
    CoreEnsure(s.segments, t, info, b);
    CoreEnsure(r.segments, t, info, b);
  }

  lemma SimilarTools(s: State, r: State, b: nat, e: StreamEvent, now: int)
    requires Similar(s, r, b) && (e.CallEvent? || e.ResultEvent?)
    ensures SameCore(Apply(s, e, now), Apply(r, e, now), b)
  {
    var p := if e.CallEvent? then PutCall(StartedCall(e)) else PutResult(e.result);
    CoreUpsert(s.segments, p, b);
    CoreUpsert(r.segments, p, b);
  }

  lemma SimilarPush(s: State, r: State, b: nat, x: Segment)
    requires Similar(s, r, b)
    requires x == TruncatedSeg || x.MediaSeg? || x == IterationCapSeg || (x.InstructionSeg? && x.content != "")
    ensures SameCore(s.(segments := s.segments + [x]), r.(segments := r.segments + [x]), b)
  {
    CorePush(s.segments, x, b);
    CorePush(r.segments, x, b);
  }

  lemma CoreCap(segs: seq<Segment>, tail: seq<Segment>, b: nat)
    ensures Core(segs + [IterationCapSeg] + tail, b) == Core(segs, b) + [IterationCapSeg] + Core(tail, b)
  {
    CorePush(segs, IterationCapSeg, b);
    CoreAppend(segs + [IterationCapSeg], tail, b);
  }

  lemma SimilarCap(s: State, r: State, b: nat, content: string)
    requires SameCore(s, r, b)
    ensures SameCore(Apply(s, IterationCapReached(content), 0), Apply(r, IterationCapReached(content), 0), b)
  {
    var tail := if content == "" then [] else [TextSeg(content)];
    CoreCap(s.segments, tail, b);
    CoreCap(r.segments, tail, b);
  }

  lemma SimilarApply(s: State, r: State, b: nat, e: StreamEvent, now: int)
    requires Similar(s, r, b)
    ensures SameCore(Apply(s, e, now), Apply(r, e, now), b)
  {
    if e.ReasoningStart? || e.ReasoningDelta? || e.ReasoningEnd? {
      SimilarReasoning(s, r, b, e, now);
    } else if e.RagStart? || e.RagContext? || e.CompressionStart? || e.CompressionEnd? {
      SimilarTasks(s, r, b, e, now);
    } else if e.CallEvent? || e.ResultEvent? {
      SimilarTools(s, r, b, e, now);
    } else {
      match e
      case ContentDelta(delta) => SimilarText(s, r, b, delta);
      case MediaEvent(body, displayed) => if displayed { SimilarPush(s, r, b, MediaSeg(body)); }
      case OutputTruncated => SimilarPush(s, r, b, TruncatedSeg);
      case IterationCapReached(content) => SimilarCap(s, r, b, content);
      case OtherEvent =>
    }
  }

  lemma {:induction false} CoreClose(segs: seq<Segment>, x: seq<Block>, y: seq<Block>, b: nat, n: nat)
    requires BlocksAlike(x, y, b) && n <= |x|
    ensures Core(CloseThoughts(segs, x, n), b) == CloseThoughts(Core(segs, b), y, n)
  {
    if n > 0 {
      var before, p := CloseThoughts(segs, x, n - 1), Close(x[n - 1].text, x[n - 1].duration);
      CoreClose(segs, x, y, b, n - 1);
      assert p == Close(y[n - 1].text, y[n - 1].duration);
      CorePatch(before, n - 1, p, b);
      assert CloseThoughts(segs, x, n) == PatchThought(before, n - 1, p);
    }
  }

  lemma SimilarFinalize(s: State, r: State, b: nat, now: int)
    requires Similar(s, r, b)
    ensures SameCore(Finalize(s, now), Finalize(r, now), b)
  {
    var x, y := FinalBlocks(s.blocks, now), FinalBlocks(r.blocks, now);
    assert BlocksAlike(x, y, b);
    CoreClose(s.segments, x, y, b, |x|);
    CoreClose(r.segments, y, y, b, |y|);
    CoreSettle(CloseThoughts(s.segments, x, |x|), b);
    CoreSettle(CloseThoughts(r.segments, y, |y|), b);
  }

  /** Without progress there is nothing to finalise. */
  lemma NoProgressIsQuiet(s: State)
    requires Inv(s) && !HasProgress(s)
    ensures Quiet(s)
  {
    forall i | 0 <= i < |s.segments|
      ensures QuietSegment(s.segments[i]) && ThoughtOf(s.segments[i]) == []
    {
      assert Coherent(s.segments[i]);
      assert s.segments[i] in s.segments;
    }
    CollectPointwise(ThoughtOf, s.segments, seq(|s.segments|, i => TruncatedSeg));
    NoThoughts(|s.segments|);
    assert |Numbered(s.blocks)| == 0;
  }

  lemma {:induction false} NoThoughts(n: nat)
    ensures Collect(ThoughtOf, seq(n, i => TruncatedSeg)) == []
  {
    if n > 0 {
      assert seq(n, i => TruncatedSeg)[1..] == seq(n - 1, i => TruncatedSeg);
      NoThoughts(n - 1);
    }
  }

  lemma SimilarFail(s: State, r: State, b: nat, now: int)
    requires Similar(s, r, b)
    ensures SameCore(Fail(s, now), Fail(r, now), b)
  {
    FailCompressionKeeps(s);
    FailCompressionKeeps(r);
    CoreTouch(s.segments, Compression, TaskError, None, b);
    CoreTouch(r.segments, Compression, TaskError, None, b);
    var s1, r1 := FailCompression(s), FailCompression(r);
    assert Similar(s1, r1, b);
    SimilarFinalize(s1, r1, b, now);
    if !HasProgress(s1) { NoProgressIsQuiet(s1); QuietIsFixed(s1, now); }
    if !HasProgress(r1) { NoProgressIsQuiet(r1); QuietIsFixed(r1, now); }
  }

  lemma SimilarPending(s: State, r: State, b: nat, id: string)
    requires Similar(s, r, b)
    ensures SameCore(s.(segments := MarkPending(s.segments, id)), r.(segments := MarkPending(r.segments, id)), b)
  {
    CoreMarkPending(s.segments, id, b);
    CoreMarkPending(r.segments, id, b);
  }

  lemma SimilarHydrate(s: State, r: State, b: nat, id: string, input: Payload)
    requires Similar(s, r, b)
    ensures SameCore(Hydrate(s, id, input), Hydrate(r, id, input), b)
  {
    CoreHas(s.segments, Rag, id, b);
    CoreHas(r.segments, Rag, id, b);
    var x := ToolSeg(Some(PlainCall(id, Some("ask_user"), Some("ask_user"), Some(input), Some(Pending))), None);
    CorePush(s.segments, x, b);
    CorePush(r.segments, x, b);
    CoreMarkPending(if HasTool(s.segments, id) then s.segments else s.segments + [x], id, b);
    CoreMarkPending(if HasTool(r.segments, id) then r.segments else r.segments + [x], id, b);
  }

  lemma SimilarStep(s: State, r: State, b: nat, step: Step, now: int)
    requires Similar(s, r, b)
    ensures Similar(Do(s, step, now), Do(r, step, now), b)
  {
    StepKeeps(s, step, now);
    StepKeeps(r, step, now);
    match step
    case Event(e) => SimilarApply(s, r, b, e, now);
    case Finish => SimilarFinalize(s, r, b, now);
    case Failure => SimilarFail(s, r, b, now);
    case Instruct(content) => if content != "" { SimilarPush(s, r, b, InstructionSeg(content)); }
    case AskUser(id) => SimilarPending(s, r, b, id);
    case Rehydrate(id, input) => SimilarHydrate(s, r, b, id, input);
  }

  lemma {:induction false} SimilarRun(s: State, r: State, b: nat, steps: seq<Timed>)
    requires Similar(s, r, b)
    ensures Similar(Run(s, steps), Run(r, steps), b)
  {
    if steps != [] {
      var n := |steps| - 1;
      SimilarRun(s, r, b, steps[..n]);
      SimilarStep(Run(s, steps[..n]), Run(r, steps[..n]), b, steps[n].step, steps[n].now);
    }
  }
}
