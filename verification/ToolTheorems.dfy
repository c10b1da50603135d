/** Tool calls and results on the timeline: they commute, settled calls stay settled, and the
    task table counts and completes them.
  */
module ToolTheorems {
  import opened Options
  import opened ChatParts
  import opened Timeline
  import opened TimelineFacts
  import opened StreamInvariants
  import opened StreamSteps

  // ---------------------------------------------------------------- call and result commute

  lemma {:induction false} FoundAgain(segs: seq<Segment>, id: string, x: Segment)
    requires Holds(x, id)
    ensures var k := FindTool(segs, id);
            k == FindTool(if k < |segs| then segs[k := x] else segs + [x], id)
  {
    var k := FindTool(segs, id);
    var after := if k < |segs| then segs[k := x] else segs + [x];
    if segs != [] && !Holds(segs[0], id) {
      FoundAgain(segs[1..], id, x);
      assert after[1..] == if k < |segs| then segs[1..][k - 1 := x] else segs[1..] + [x];
    }
  }

  /** Two patches of one id meet in the same segment. */
  lemma UpsertTwice(segs: seq<Segment>, p: ToolPatch, q: ToolPatch)
    requires p.Id() == q.Id()
    ensures var k := FindTool(segs, p.Id());
            var x := if k < |segs| then p.Patched(segs[k]) else p.Opened();
            Upsert(Upsert(segs, p), q)
            == if k < |segs| then segs[k := q.Patched(x)] else segs + [q.Patched(x)]
  {
    var k := FindTool(segs, p.Id());
    var x := if k < |segs| then p.Patched(segs[k]) else p.Opened();
    UpsertByIndex(segs, p);
    FoundAgain(segs, p.Id(), x);
    UpsertByIndex(Upsert(segs, p), q);
  }

  predicate HeldByMcpCall(segs: seq<Segment>, id: string) {
    var k := FindTool(segs, id);
    k < |segs| && segs[k].call.Some? && segs[k].call.value.McpCall?
  }

  /** In any state at all, a call and a result of one id may arrive in either order, unless
      the id is held by an MCP call from a reloaded message: then the late call replaces it and
      runs again. Only the table of task states can tell the two orders apart. */
  lemma CallAndResultCommute(s: State, e: StreamEvent, r: StreamEvent, now: int, later: int)
    requires e.CallEvent? && r.ResultEvent? && r.result.id == e.id
    ensures var ab := Apply(Apply(s, e, now), r, later);
            var ba := Apply(Apply(s, r, now), e, later);
            && ab.sources == ba.sources
            && (ab.segments == ba.segments <==> !HeldByMcpCall(s.segments, e.id))
            && ba.tasks.toolCalling == TaskRunning
  {
    UpsertTwice(s.segments, PutCall(StartedCall(e)), PutResult(r.result));
    UpsertTwice(s.segments, PutResult(r.result), PutCall(StartedCall(e)));
    var ab := Apply(Apply(s, e, now), r, later).segments;
    var ba := Apply(Apply(s, r, now), e, later).segments;
    var k := FindTool(s.segments, e.id);
    if k < |s.segments| {
      assert ab[k] == ba[k] <==> !HeldByMcpCall(s.segments, e.id);
    }
  }

  // ---------------------------------------------------------------- settled calls stay settled

  predicate SettledAt(segs: seq<Segment>, i: nat) {
    i < |segs| && segs[i].ToolSeg? && segs[i].call.Some? && segs[i].call.value.Terminal()
  }

  ghost predicate NoneRevived(a: seq<Segment>, b: seq<Segment>) {
    forall i: nat :: SettledAt(a, i) ==> SettledAt(b, i)
  }

  lemma UpsertRevivesNone(segs: seq<Segment>, p: ToolPatch)
    requires PlainTools(segs) && (p.PutCall? ==> p.call.PlainCall?)
    ensures NoneRevived(segs, Upsert(segs, p))
  {
    UpsertByIndex(segs, p);
  }

  lemma EditRevivesNone(a: seq<Segment>, b: seq<Segment>)
    requires TaskEdit(a, b) || ThoughtEdit(a, b) || b == SettleAll(a) || (|a| <= |b| && b[..|a|] == a)
    ensures NoneRevived(a, b)
  {
    forall i: nat | SettledAt(a, i)
      ensures SettledAt(b, i)
    {
      assert |a| <= |b| && b[..|a|] == a ==> b[i] == b[..|a|][i];
    }
  }

  lemma FinalizeRevivesNone(s: State, now: int)
    requires Inv(s)
    ensures NoneRevived(s.segments, Finalize(s, now).segments)
  {
    var blocks := FinalBlocks(s.blocks, now);
    CloseMirror(s.segments, s.blocks, now, |blocks|);
    EditRevivesNone(s.segments, CloseThoughts(s.segments, blocks, |blocks|));
    EditRevivesNone(CloseThoughts(s.segments, blocks, |blocks|), Finalize(s, now).segments);
  }

  lemma PatchRevivesNone(s: State, p: ThoughtPatch)
    requires Inv(s) && ThoughtOpen(s)
    ensures NoneRevived(s.segments, PatchThought(s.segments, s.current, p))
  {
    PatchMirror(s.segments, Numbered(s.blocks), s.current, p);
    EditRevivesNone(s.segments, PatchThought(s.segments, s.current, p));
  }

  lemma GrowRevivesNone(s: State, delta: string, now: int)
    requires Inv(s)
    ensures NoneRevived(s.segments, Apply(s, ReasoningDelta(delta), now).segments)
  {
    var s1 := if ThoughtOpen(s) then s else OpenThought(s, now);
    if !ThoughtOpen(s) { OpenStep(s, now); }
    EditRevivesNone(s.segments, s1.segments);
    PatchRevivesNone(s1, Growth(s1, delta));
  }

  lemma BeginRevivesNone(s: State)
    ensures NoneRevived(s.segments, BeginAnswer(s).segments)
  {
    TouchShape(s.segments, Rag, TaskCompleted, None);
    EditRevivesNone(s.segments, TouchLatest(s.segments, Rag, TaskCompleted, None));
  }

  lemma TextRevivesNone(s: State, delta: string)
    ensures NoneRevived(s.segments, Apply(s, ContentDelta(delta), 0).segments)
  {
    BeginRevivesNone(s);
    var segs := BeginAnswer(s).segments;
    forall i: nat | SettledAt(segs, i)
      ensures AppendText(segs, delta)[i] == segs[i]
    {
    }
  }

  lemma EnsureRevivesNone(segs: seq<Segment>, t: TaskType, info: Option<Info>)
    ensures NoneRevived(segs, EnsureTask(segs, t, TaskCompleted, info))
  {
    TouchShape(segs, t, TaskCompleted, info);
    EditRevivesNone(segs, EnsureTask(segs, t, TaskCompleted, info));
  }

  lemma ApplyRevivesNone(s: State, e: StreamEvent, now: int)
    requires Inv(s)
    ensures NoneRevived(s.segments, Apply(s, e, now).segments)
  {
    match e
    case CallEvent(_, _, _, _) => UpsertRevivesNone(s.segments, PutCall(StartedCall(e)));
    case ResultEvent(result, _) => UpsertRevivesNone(s.segments, PutResult(result));
    case ReasoningDelta(delta) => GrowRevivesNone(s, delta, now);
    case ReasoningEnd =>
      if ThoughtOpen(s) {
        PatchRevivesNone(s, Closure(s, now));
      }
    case ContentDelta(delta) => TextRevivesNone(s, delta);
    case RagContext(_, info) => EnsureRevivesNone(s.segments, Rag, Some(Structured(info)));
    case CompressionEnd(info) => EnsureRevivesNone(s.segments, Compression, info);
    case _ =>
  }

  /** The call that an AskUser step would turn from settled to pending. */
  predicate Reopens(segs: seq<Segment>, step: Step, i: nat) {
    && (step.AskUser? || step.Rehydrate?)
    && i == FindTool(segs, step.id) && i < |segs| && Askable(segs[i])
  }

  lemma FailRevivesNone(s: State, now: int)
    requires Inv(s)
    ensures NoneRevived(s.segments, Fail(s, now).segments)
  {
    FailCompressionKeeps(s);
    EditRevivesNone(s.segments, FailCompression(s).segments);
    FinalizeRevivesNone(FailCompression(s), now);
  }

  lemma HydrateReopens(s: State, id: string, input: Payload, i: nat)
    requires SettledAt(s.segments, i)
    ensures SettledAt(Hydrate(s, id, input).segments, i) <==> !Reopens(s.segments, Rehydrate(id, input), i)
  {
    FoundIffHeld(s.segments, id, Rag);
    var asking := ToolSeg(Some(PlainCall(id, Some("ask_user"), Some("ask_user"), Some(input), Some(Pending))), None);
    var segs := if HasTool(s.segments, id) then s.segments else s.segments + [asking];
    FoundAgain(s.segments, id, asking);
    MarkPendingByIndex(segs, id);
  }

  /** A settled call is reopened by a step exactly when the step marks that very call as waiting
      for the user: it is named ask_user and has no result yet. No other step revives a call. */
  lemma SettledUnlessAsked(s: State, step: Step, now: int, i: nat)
    requires Inv(s) && SettledAt(s.segments, i)
    ensures SettledAt(Do(s, step, now).segments, i) <==> !Reopens(s.segments, step, i)
  {
    match step
    case Event(e) => ApplyRevivesNone(s, e, now);
    case Finish => FinalizeRevivesNone(s, now);
    case Failure => FailRevivesNone(s, now);
    case Instruct(content) =>
    case AskUser(id) => MarkPendingByIndex(s.segments, id);
    case Rehydrate(id, input) => HydrateReopens(s, id, input, i);
  }

  function Asked(state: CallState): Segment {
    ToolSeg(Some(PlainCall("q", Some("ask_user"), None, None, Some(state))), None)
  }

  /** Once reopened, a call can even run again: done, pending, running. */
  lemma AskedCallRunsAgain()
    ensures var call := Event(CallEvent("q", Some("ask_user"), None, None));
            var done := Run(EMPTY_STATE, [Timed(call, 0), Timed(Finish, 1)]);
            var again := Run(done, [Timed(AskUser("q"), 2), Timed(call, 3)]);
            done.segments == [Asked(Done)] && again.segments == [Asked(Running)]
  {
    var call := Event(CallEvent("q", Some("ask_user"), None, None));
    var s1 := Do(EMPTY_STATE, call, 0);
    assert s1.segments == [Asked(Running)];
    var s2 := Do(s1, Finish, 1);
    assert s2.segments == [Asked(Done)];
    var s3 := Do(s2, AskUser("q"), 2);
    assert s3.segments == [Asked(Pending)];
    var s4 := Do(s3, call, 3);
    assert s4.segments == [Asked(Running)];
    var first, second := [Timed(call, 0), Timed(Finish, 1)], [Timed(AskUser("q"), 2), Timed(call, 3)];
    assert first[..1] == [Timed(call, 0)] && second[..1] == [Timed(AskUser("q"), 2)];
    assert first[..1][..0] == [] && second[..1][..0] == [];
    assert Run(EMPTY_STATE, first[..1]) == s1;
    assert Run(s2, second[..1]) == s3;
  }

  // ---------------------------------------------------------------- the table of task states

  function Calls(segs: seq<Segment>): seq<ToolCall> {
    Collect(CallOf, segs)
  }

  predicate Started(c: ToolCall) {
    c.state == Some(Running) || c.Terminal()
  }

  /** `completed` means that every call is done or failed. */
  predicate Truthful(s: State) {
    s.tasks.toolCalling == TaskCompleted ==> AllTerminal(Calls(s.segments))
  }

  predicate Counted(s: State) {
    s.tasks.toolCallCount == if Calls(s.segments) == [] then None else Some(|Calls(s.segments)|)
  }

  /** The step makes the table say `completed` beside a call that waits for the user: it asks again
      about a call of a completed table, or it ends the run of a waiting call. */
  predicate Overlooks(s: State, step: Step) {
    match step
    case AskUser(id) => s.tasks.toolCalling == TaskCompleted && Reopens(s.segments, step, FindTool(s.segments, id))
    case Finish => s.tasks.toolCalling == TaskRunning && exists c :: c in Calls(s.segments) && !Started(c)
    case Failure => s.tasks.toolCalling == TaskRunning && exists c :: c in Calls(s.segments) && !Started(c)
    case _ => false
  }

  /** The step shows a call of its own and does not count it. */
  predicate Miscounts(s: State, step: Step) {
    step.Rehydrate? && !HasTool(s.segments, step.id)
  }

  lemma EditCalls(a: seq<Segment>, b: seq<Segment>)
    requires TaskEdit(a, b) || ThoughtEdit(a, b)
    ensures Calls(a) == Calls(b)
  {
    CollectPointwise(CallOf, a, b);
  }

  lemma PushCalls(a: seq<Segment>, x: Segment)
    requires !x.ToolSeg?
    ensures Calls(a + [x]) == Calls(a)
  {
    CollectPush(CallOf, a, x);
  }

  lemma {:induction false} SettleCalls(segs: seq<Segment>)
    ensures |Calls(SettleAll(segs))| == |Calls(segs)|
    ensures AllTerminal(Calls(SettleAll(segs))) <==> forall c :: c in Calls(segs) ==> Started(c)
  {
    if segs != [] {
      assert SettleAll(segs)[1..] == SettleAll(segs[1..]);
      SettleCalls(segs[1..]);
      SettledCall(segs[0]);
      var head, rest := CallOf(segs[0]), Calls(segs[1..]);
      var head1, rest1 := CallOf(Settle(segs[0])), Calls(SettleAll(segs[1..]));
      assert Calls(SettleAll(segs)) == head1 + rest1 && Calls(segs) == head + rest;
      assert forall c :: c in head1 + rest1 <==> c in head1 || c in rest1;
      assert forall c :: c in head + rest <==> c in head || c in rest;
    }
  }

  lemma SettledCall(seg: Segment)
    ensures |CallOf(Settle(seg))| == |CallOf(seg)|
    ensures AllTerminal(CallOf(Settle(seg))) <==> forall c :: c in CallOf(seg) ==> Started(c)
  {
    if seg.ToolSeg? && seg.call.Some? {
      assert CallOf(seg) == [seg.call.value] && CallOf(Settle(seg)) == [Settle(seg).call.value];
    }
  }

  lemma FinalizeCalls(s: State, now: int)
    requires Inv(s)
    ensures var after := Calls(Finalize(s, now).segments);
            |after| == |Calls(s.segments)| && (AllTerminal(after) <==> forall c :: c in Calls(s.segments) ==> Started(c))
  {
    var blocks := FinalBlocks(s.blocks, now);
    var closed := CloseThoughts(s.segments, blocks, |blocks|);
    CloseMirror(s.segments, s.blocks, now, |blocks|);
    EditCalls(s.segments, closed);
    SettleCalls(closed);
  }

  /** The list of calls around one segment. */
  lemma CallsAround(segs: seq<Segment>, k: nat, x: Segment)
    requires k < |segs|
    ensures var front, back := Calls(segs[..k]), Calls(segs[k + 1..]);
            && Calls(segs) == front + CallOf(segs[k]) + back && Calls(segs[k := x]) == front + CallOf(x) + back
            && (forall c :: c in Calls(segs) <==> c in front || c in CallOf(segs[k]) || c in back)
            && (forall c :: c in Calls(segs[k := x]) <==> c in front || c in CallOf(x) || c in back)
  {
    CollectUpdate(CallOf, segs, k, x);
    CollectUpdate(CallOf, segs, k, segs[k]);
    assert segs[k := segs[k]] == segs;
    var front, back := Calls(segs[..k]), Calls(segs[k + 1..]);
    assert forall c :: c in front + CallOf(segs[k]) + back <==> c in front || c in CallOf(segs[k]) || c in back;
    assert forall c :: c in front + CallOf(x) + back <==> c in front || c in CallOf(x) || c in back;
  }

  /** What an upsert does to the list of calls. */
  lemma UpsertCalls(segs: seq<Segment>, p: ToolPatch)
    requires PlainTools(segs) && (p.PutCall? ==> p.call.PlainCall? && p.call.state == Some(Running))
    ensures var after := Calls(Upsert(segs, p));
            && ((forall c :: c in Calls(segs) ==> Started(c)) ==> forall c :: c in after ==> Started(c))
            && (p.PutCall? ==> after != [])
            && (p.PutResult? ==> |after| == |Calls(segs)| && (AllTerminal(Calls(segs)) ==> AllTerminal(after)))
  {
    UpsertByIndex(segs, p);
    var k := FindTool(segs, p.Id());
    if k < |segs| {
      CallsAround(segs, k, p.Patched(segs[k]));
    } else {
      CollectPush(CallOf, segs, p.Opened());
    }
  }

  /** What a question does to it. */
  lemma PendingCalls(segs: seq<Segment>, id: string)
    ensures var after, k := Calls(MarkPending(segs, id)), FindTool(segs, id);
            && |after| == |Calls(segs)|
            && (k < |segs| && Askable(segs[k]) ==> !AllTerminal(after))
            && (!(k < |segs| && Askable(segs[k])) ==> after == Calls(segs))
  {
    MarkPendingByIndex(segs, id);
    var k := FindTool(segs, id);
    if k < |segs| && Askable(segs[k]) {
      CallsAround(segs, k, Awaiting(segs[k]));
      assert Awaiting(segs[k]).call.value in CallOf(Awaiting(segs[k]));
    }
  }

  lemma BeginCalls(s: State)
    ensures Calls(BeginAnswer(s).segments) == Calls(s.segments)
  {
    if s.tasks.generating == TaskPending {
      var touched := TouchLatest(s.segments, Rag, TaskCompleted, None);
      TouchShape(s.segments, Rag, TaskCompleted, None);
      EditCalls(s.segments, touched);
      PushCalls(s.segments, TaskSeg(Task(Generating, TaskRunning, None)));
      PushCalls(touched, TaskSeg(Task(Generating, TaskRunning, None)));
    }
  }

  lemma TextCalls(s: State, delta: string)
    ensures Calls(Apply(s, ContentDelta(delta), 0).segments) == Calls(s.segments)
  {
    BeginCalls(s);
    var segs := BeginAnswer(s).segments;
    if EndsInText(segs) {
      var n := |segs| - 1;
      assert segs == segs[..n] + [segs[n]];
      PushCalls(segs[..n], segs[n]);
      PushCalls(segs[..n], TextSeg(segs[n].text + delta));
    } else {
      PushCalls(segs, TextSeg(delta));
    }
  }

  lemma PatchCalls(s: State, p: ThoughtPatch)
    requires Inv(s) && ThoughtOpen(s)
    ensures Calls(PatchThought(s.segments, s.current, p)) == Calls(s.segments)
  {
    PatchMirror(s.segments, Numbered(s.blocks), s.current, p);
    EditCalls(s.segments, PatchThought(s.segments, s.current, p));
  }

  lemma GrowCalls(s: State, delta: string, now: int)
    requires Inv(s)
    ensures Calls(Apply(s, ReasoningDelta(delta), now).segments) == Calls(s.segments)
  {
    var s1 := if ThoughtOpen(s) then s else OpenThought(s, now);
    if !ThoughtOpen(s) { OpenStep(s, now); }
    PushCalls(s.segments, ReasoningSeg(|s.blocks|, "", true, now, None));
    PatchCalls(s1, Growth(s1, delta));
  }

  lemma CapCalls(segs: seq<Segment>, content: string)
    ensures Calls(segs + [IterationCapSeg] + (if content == "" then [] else [TextSeg(content)])) == Calls(segs)
  {
    assert segs + [IterationCapSeg] + [] == segs + [IterationCapSeg];
    PushCalls(segs, IterationCapSeg);
    PushCalls(segs + [IterationCapSeg], TextSeg(content));
  }

  lemma OtherEventCalls(s: State, e: StreamEvent, now: int)
    requires Inv(s) && !e.CallEvent? && !e.ResultEvent?
    ensures Calls(Apply(s, e, now).segments) == Calls(s.segments)
  {
    match e
    case ContentDelta(delta) => TextCalls(s, delta);
    case ReasoningDelta(delta) => GrowCalls(s, delta, now);
    case ReasoningEnd =>
      if ThoughtOpen(s) {
        PatchCalls(s, Closure(s, now));
      }
    case RagContext(_, info) => EnsureCalls(s.segments, Rag, Some(Structured(info)));
    case CompressionEnd(info) => EnsureCalls(s.segments, Compression, info);
    case IterationCapReached(content) => CapCalls(s.segments, content);
    case RagStart => PushCalls(s.segments, TaskSeg(Task(Rag, TaskRunning, None)));
    case ReasoningStart => PushCalls(s.segments, ReasoningSeg(|s.blocks|, "", true, now, None));
    case CompressionStart(info) => PushCalls(s.segments, TaskSeg(Task(Compression, TaskRunning, info)));
    case MediaEvent(body, _) => PushCalls(s.segments, MediaSeg(body));
    case OutputTruncated => PushCalls(s.segments, TruncatedSeg);
    case OtherEvent =>
  }

  lemma EnsureCalls(segs: seq<Segment>, t: TaskType, info: Option<Info>)
    ensures Calls(EnsureTask(segs, t, TaskCompleted, info)) == Calls(segs)
  {
    TouchShape(segs, t, TaskCompleted, info);
    EditCalls(segs, TouchLatest(segs, t, TaskCompleted, info));
    PushCalls(segs, TaskSeg(Task(t, TaskCompleted, info)));
  }

  lemma FailCalls(s: State, now: int)
    requires Inv(s)
    ensures var after := Fail(s, now);
            && (HasProgress(FailCompression(s)) ==>
                  && |Calls(after.segments)| == |Calls(s.segments)|
                  && (AllTerminal(Calls(after.segments)) <==> forall c :: c in Calls(s.segments) ==> Started(c))
                  && after.tasks.toolCalling == SettleTask(s.tasks.toolCalling))
            && (!HasProgress(FailCompression(s)) ==>
                  Calls(after.segments) == Calls(s.segments) && after.tasks.toolCalling == s.tasks.toolCalling)
            && after.tasks.toolCallCount == s.tasks.toolCallCount
  {
    FailCompressionKeeps(s);
    EditCalls(s.segments, FailCompression(s).segments);
    FinalizeCalls(FailCompression(s), now);
  }

  lemma HydrateCalls(s: State, id: string, input: Payload)
    ensures |Calls(Hydrate(s, id, input).segments)| == |Calls(s.segments)| + if HasTool(s.segments, id) then 0 else 1
  {
    var asking := ToolSeg(Some(PlainCall(id, Some("ask_user"), Some("ask_user"), Some(input), Some(Pending))), None);
    CollectPush(CallOf, s.segments, asking);
    PendingCalls(if HasTool(s.segments, id) then s.segments else s.segments + [asking], id);
  }

  lemma EventTables(s: State, e: StreamEvent, now: int)
    requires Inv(s)
    ensures Truthful(s) ==> Truthful(Apply(s, e, now))
    ensures Counted(s) ==> Counted(Apply(s, e, now))
  {
    if e.CallEvent? {
      UpsertCalls(s.segments, PutCall(StartedCall(e)));
    } else if e.ResultEvent? {
      UpsertCalls(s.segments, PutResult(e.result));
    } else {
      OtherEventCalls(s, e, now);
    }
  }

  /** A step makes a truthful table lie exactly when it overlooks a call that waits for the user. */
  lemma CompletedUnlessOverlooked(s: State, step: Step, now: int)
    requires Inv(s) && Truthful(s)
    ensures Truthful(Do(s, step, now)) <==> !Overlooks(s, step)
  {
    match step
    case Event(e) => EventTables(s, e, now);
    case Finish => FinalizeCalls(s, now);
    case Failure => FailCalls(s, now);
    case Instruct(content) => PushCalls(s.segments, InstructionSeg(content));
    case AskUser(id) => PendingCalls(s.segments, id);
    case Rehydrate(id, input) =>
  }

  /** A step makes a right count wrong exactly when it shows a call that no event announced. */
  lemma CountedUnlessMiscounted(s: State, step: Step, now: int)
    requires Inv(s) && Counted(s)
    ensures Counted(Do(s, step, now)) <==> !Miscounts(s, step)
  {
    match step
    case Event(e) => EventTables(s, e, now);
    case Finish => FinalizeCalls(s, now);
    case Failure => FailCalls(s, now);
    case Instruct(content) => PushCalls(s.segments, InstructionSeg(content));
    case AskUser(id) => PendingCalls(s.segments, id);
    case Rehydrate(id, input) => HydrateCalls(s, id, input);
  }

  function StateAt(steps: seq<Timed>, k: nat): State
    requires k <= |steps|
  {
    Run(EMPTY_STATE, steps[..k])
  }

  lemma StateAfter(steps: seq<Timed>, k: nat)
    requires k < |steps|
    ensures Inv(StateAt(steps, k)) && StateAt(steps, k + 1) == Do(StateAt(steps, k), steps[k].step, steps[k].now)
  {
    EmptyInv();
    RunKeeps(EMPTY_STATE, steps[..k]);
    assert steps[..k + 1] == steps[..k] + [steps[k]];
    RunPush(EMPTY_STATE, steps[..k], steps[k]);
  }

  /** What holds at first and is lost in a step exactly if the step is bad, holds all along exactly if
      no step is bad. */
  lemma {:induction false} HeldAllAlong(held: seq<bool>, bad: seq<bool>)
    requires |held| == |bad| + 1 && held[0]
    requires forall k :: 0 <= k < |bad| && held[k] ==> (held[k + 1] <==> !bad[k])
    ensures (forall k :: 0 <= k < |held| ==> held[k]) <==> forall k :: 0 <= k < |bad| ==> !bad[k]
  {
    var n := |bad|;
    if n > 0 {
      HeldAllAlong(held[..n], bad[..n - 1]);
      assert forall k :: 0 <= k < n ==> held[k] == held[..n][k];
      assert forall k :: 0 <= k < n - 1 ==> bad[k] == bad[..n - 1][k];
      assert held[n - 1] ==> (held[n - 1 + 1] <==> !bad[n - 1]);
    }
  }

  lemma TruthfulAllAlong(steps: seq<Timed>)
    ensures (forall k :: 0 <= k <= |steps| ==> Truthful(StateAt(steps, k)))
            <==> forall k :: 0 <= k < |steps| ==> !Overlooks(StateAt(steps, k), steps[k].step)
  {
    var n := |steps|;
    var held := seq(n + 1, k requires 0 <= k <= n => Truthful(StateAt(steps, k)));
    var bad := seq(n, k requires 0 <= k < n => Overlooks(StateAt(steps, k), steps[k].step));
    forall k | 0 <= k < n && held[k]
      ensures held[k + 1] <==> !bad[k]
    {
      StateAfter(steps, k);
      CompletedUnlessOverlooked(StateAt(steps, k), steps[k].step, steps[k].now);
    }
    assert StateAt(steps, 0) == EMPTY_STATE;
    HeldAllAlong(held, bad);
    assert forall k :: 0 <= k <= n ==> Truthful(StateAt(steps, k)) == held[k];
    assert forall k :: 0 <= k < n ==> Overlooks(StateAt(steps, k), steps[k].step) == bad[k];
  }

  lemma CountedAllAlong(steps: seq<Timed>)
    ensures (forall k :: 0 <= k <= |steps| ==> Counted(StateAt(steps, k)))
            <==> forall k :: 0 <= k < |steps| ==> !Miscounts(StateAt(steps, k), steps[k].step)
  {
    var n := |steps|;
    var held := seq(n + 1, k requires 0 <= k <= n => Counted(StateAt(steps, k)));
    var bad := seq(n, k requires 0 <= k < n => Miscounts(StateAt(steps, k), steps[k].step));
    forall k | 0 <= k < n && held[k]
      ensures held[k + 1] <==> !bad[k]
    {
      StateAfter(steps, k);
      CountedUnlessMiscounted(StateAt(steps, k), steps[k].step, steps[k].now);
    }
    assert StateAt(steps, 0) == EMPTY_STATE;
    HeldAllAlong(held, bad);
    assert forall k :: 0 <= k <= n ==> Counted(StateAt(steps, k)) == held[k];
    assert forall k :: 0 <= k < n ==> Miscounts(StateAt(steps, k), steps[k].step) == bad[k];
  }

  /** Over every run: `completed` means all along that every call is done or failed exactly if no
      step overlooks a waiting call, and the count is right all along exactly if none miscounts. */
  lemma {:induction false} TableMatchesTools(steps: seq<Timed>)
    ensures (forall k :: 0 <= k <= |steps| ==> Truthful(StateAt(steps, k)))
            <==> forall k :: 0 <= k < |steps| ==> !Overlooks(StateAt(steps, k), steps[k].step)
    ensures (forall k :: 0 <= k <= |steps| ==> Counted(StateAt(steps, k)))
            <==> forall k :: 0 <= k < |steps| ==> !Miscounts(StateAt(steps, k), steps[k].step)
  {
    TruthfulAllAlong(steps);
    CountedAllAlong(steps);
  }

  /** Without questions to the user no call ever waits, so the table is always right. */
  lemma {:induction false} UnaskedRunsMatch(steps: seq<Timed>)
    requires forall i :: 0 <= i < |steps| ==> !steps[i].step.AskUser? && !steps[i].step.Rehydrate?
    ensures var s := Run(EMPTY_STATE, steps);
            Truthful(s) && Counted(s) && forall c :: c in Calls(s.segments) ==> Started(c)
  {
    if steps != [] {
      var n := |steps| - 1;
      var s, step, now := Run(EMPTY_STATE, steps[..n]), steps[n].step, steps[n].now;
      UnaskedRunsMatch(steps[..n]);
      EmptyInv();
      RunKeeps(EMPTY_STATE, steps[..n]);
      CompletedUnlessOverlooked(s, step, now);
      CountedUnlessMiscounted(s, step, now);
      StartedStep(s, step, now);
    }
  }

  lemma StartedStep(s: State, step: Step, now: int)
    requires Inv(s) && !step.AskUser? && !step.Rehydrate? && forall c :: c in Calls(s.segments) ==> Started(c)
    ensures forall c :: c in Calls(Do(s, step, now).segments) ==> Started(c)
  {
    match step
    case Event(e) =>
      if e.CallEvent? {
        UpsertCalls(s.segments, PutCall(StartedCall(e)));
      } else if e.ResultEvent? {
        UpsertCalls(s.segments, PutResult(e.result));
      } else {
        OtherEventCalls(s, e, now);
      }
    case Finish => FinalizeCalls(s, now);
    case Failure => FailCalls(s, now);
    case Instruct(content) => PushCalls(s.segments, InstructionSeg(content));
  }

  const ASK_CALL := Event(CallEvent("q", Some("ask_user"), None, None))

  /** The user is asked and the run ends, or the run ends and the user is asked: either way the table
      says `completed` while the call waits. */
  lemma CompletedWithPendingCall()
    ensures var before := Run(EMPTY_STATE, [Timed(ASK_CALL, 0), Timed(AskUser("q"), 1), Timed(Finish, 2)]);
            var after := Run(EMPTY_STATE, [Timed(ASK_CALL, 0), Timed(Finish, 1), Timed(AskUser("q"), 2)]);
            && before.segments == [Asked(Pending)] == after.segments
            && before.tasks.toolCalling == TaskCompleted == after.tasks.toolCalling
  {
    ThreeSteps(Timed(ASK_CALL, 0), Timed(AskUser("q"), 1), Timed(Finish, 2));
    ThreeSteps(Timed(ASK_CALL, 0), Timed(Finish, 1), Timed(AskUser("q"), 2));
    AskedBeforeEnd();
    AskedAfterEnd();
  }

  lemma AskedBeforeEnd()
    ensures var s := Do(Do(Do(EMPTY_STATE, ASK_CALL, 0), AskUser("q"), 1), Finish, 2);
            s.segments == [Asked(Pending)] && s.tasks.toolCalling == TaskCompleted
  {
    var s := Do(EMPTY_STATE, ASK_CALL, 0);
    assert s.segments == [Asked(Running)] && s.tasks.toolCalling == TaskRunning && s.blocks == [];
    var s1 := Do(s, AskUser("q"), 1);
    assert s1.segments == [Asked(Pending)];
  }

  lemma AskedAfterEnd()
    ensures var s := Do(Do(Do(EMPTY_STATE, ASK_CALL, 0), Finish, 1), AskUser("q"), 2);
            s.segments == [Asked(Pending)] && s.tasks.toolCalling == TaskCompleted
  {
    var s := Do(EMPTY_STATE, ASK_CALL, 0);
    assert s.segments == [Asked(Running)] && s.tasks.toolCalling == TaskRunning && s.blocks == [];
    var s1 := Do(s, Finish, 1);
    assert s1.segments == [Asked(Done)];
  }

  lemma ThreeSteps(a: Timed, b: Timed, c: Timed)
    ensures Run(EMPTY_STATE, [a, b, c])
            == Do(Do(Do(EMPTY_STATE, a.step, a.now), b.step, b.now), c.step, c.now)
  {
    assert [a, b, c] == [a, b] + [c] && [a, b] == [a] + [b] && [a] == [] + [a];
    RunPush(EMPTY_STATE, [a, b], c);
    RunPush(EMPTY_STATE, [a], b);
    RunPush(EMPTY_STATE, [], a);
  }
}
