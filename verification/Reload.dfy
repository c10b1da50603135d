/** Loading the parts of a message back into a state: what comes back, when it renders the
    same parts again, and that a finalised state survives the trip.
  */
module Reload {
  import opened Options
  import opened ChatParts
  import opened Timeline
  import opened TimelineFacts
  import opened StreamInvariants
  import opened StreamSteps
  import opened StreamTheorems
  import opened Rebuild

  // ---------------------------------------------------------------- what loading keeps

  /** Every tool segment has a part, and its call and result carry one id. */
  predicate OneId(seg: Segment) {
    seg.ToolSeg? ==>
      && (seg.call.Some? || seg.result.Some?)
      && (seg.call.Some? && seg.result.Some? ==> seg.call.value.id == seg.result.value.id)
  }

  predicate Loaded(s: State) {
    && (forall i :: 0 <= i < |s.segments| ==> OneId(s.segments[i])) && Distinct(s.segments)
    && Mirror(s.segments, s.blocks) && Linked(s.segments, s.tasks)
  }

  /** Another tool segment of the same id in the same place. */
  lemma ReplacedTool(segs: seq<Segment>, k: nat, x: Segment)
    requires k < |segs| && segs[k].ToolSeg? && x.ToolSeg? && ToolId(x) == ToolId(segs[k]) && OneId(x)
    requires (forall i :: 0 <= i < |segs| ==> OneId(segs[i])) && Distinct(segs)
    ensures var after := segs[k := x];
            (forall i :: 0 <= i < |after| ==> OneId(after[i])) && Distinct(after) && ToolEdit(segs, after)
  {
    var after := segs[k := x];
    forall i, j | 0 <= i < j < |after| && after[i].ToolSeg? && after[j].ToolSeg?
      ensures ToolId(after[i]) != ToolId(after[j])
    {
      assert ToolId(segs[i]) != ToolId(segs[j]);
    }
  }

  lemma UpsertLoads(segs: seq<Segment>, p: ToolPatch)
    requires (forall i :: 0 <= i < |segs| ==> OneId(segs[i])) && Distinct(segs)
    ensures var after := Upsert(segs, p);
            && (forall i :: 0 <= i < |after| ==> OneId(after[i])) && Distinct(after)
            && Collect(ThoughtOf, after) == Collect(ThoughtOf, segs)
            && (forall t :: LatestState(after, t) == LatestState(segs, t))
  {
    UpsertByIndex(segs, p);
    var k := FindTool(segs, p.Id());
    if k < |segs| {
      var x := p.Patched(segs[k]);
      var after := segs[k := x];
      assert OneId(segs[k]) && OneId(x) && ToolId(x) == ToolId(segs[k]);
      ReplacedTool(segs, k, x);
      forall t
        ensures LatestState(after, t) == LatestState(segs, t)
      {
        ToolEditKeeps(segs, after, t);
      }
      ToolEditKeeps(segs, after, Rag);
    } else {
      OpenedTool(segs, p);
    }
  }

  /** A tool segment of a new id at the end. */
  lemma OpenedTool(segs: seq<Segment>, p: ToolPatch)
    requires (forall i :: 0 <= i < |segs| ==> OneId(segs[i])) && Distinct(segs) && FindTool(segs, p.Id()) == |segs|
    ensures var after := segs + [p.Opened()];
            && (forall i :: 0 <= i < |after| ==> OneId(after[i])) && Distinct(after)
            && Collect(ThoughtOf, after) == Collect(ThoughtOf, segs)
            && (forall t :: LatestState(after, t) == LatestState(segs, t))
  {
    PushShape(segs, p.Opened());
    assert Collect(ThoughtOf, segs) + [] == Collect(ThoughtOf, segs);
    forall i | 0 <= i < |segs| && segs[i].ToolSeg?
      ensures ToolId(segs[i]) != Some(p.Id())
    {
      assert OneId(segs[i]) && !Holds(segs[i], p.Id());
    }
  }

  /** One more segment that is no tool segment, and whatever block and task state belong to it. */
  lemma PushLoads(s: State, x: Segment, blocks: seq<Block>, tasks: TaskTable)
    requires Loaded(s) && !x.ToolSeg?
    requires Numbered(blocks) == Numbered(s.blocks) + ThoughtOf(x)
    requires Linked(s.segments + [x], tasks)
    ensures Mirror(s.segments + [x], blocks)
    ensures (forall i :: 0 <= i < |s.segments + [x]| ==> OneId((s.segments + [x])[i])) && Distinct(s.segments + [x])
  {
    CollectPush(ThoughtOf, s.segments, x);
    PushOneId(s.segments, x);
  }

  lemma PushOneId(segs: seq<Segment>, x: Segment)
    requires (forall i :: 0 <= i < |segs| ==> OneId(segs[i])) && Distinct(segs) && !x.ToolSeg?
    ensures var after := segs + [x]; (forall i :: 0 <= i < |after| ==> OneId(after[i])) && Distinct(after)
  {
  }

  lemma SimplePush(s: State, x: Segment)
    requires Loaded(s) && !x.ToolSeg? && !x.TaskSeg? && !x.ReasoningSeg?
    ensures Loaded(s.(segments := s.segments + [x]))
  {
    PushShape(s.segments, x);
    assert Numbered(s.blocks) + [] == Numbered(s.blocks);
    PushLoads(s, x, s.blocks, s.tasks);
  }

  lemma ThoughtLoads(s: State, text: string, open: bool, duration: Option<int>, now: int)
    requires Loaded(s)
    ensures Loaded(AddPart(s, ReasoningPart(text, open, duration), now))
  {
    var x, block := ReasoningSeg(|s.blocks|, text, open, now, duration), Block(text, now, duration, open);
    assert Numbered(s.blocks + [block]) == Numbered(s.blocks) + ThoughtOf(x);
    PushLatest(s.segments, x, Rag);
    PushLatest(s.segments, x, Generating);
    PushLatest(s.segments, x, Compression);
    PushLoads(s, x, s.blocks + [block], s.tasks);
  }

  lemma TaskLoads(s: State, task: Task, now: int)
    requires Loaded(s)
    ensures Loaded(AddPart(s, TaskPart(task), now))
  {
    var x := TaskSeg(task);
    PushLatest(s.segments, x, Rag);
    PushLatest(s.segments, x, Generating);
    PushLatest(s.segments, x, Compression);
    assert Numbered(s.blocks) + [] == Numbered(s.blocks);
    PushLoads(s, x, s.blocks, AddPart(s, TaskPart(task), now).tasks);
  }

  lemma ToolLoads(s: State, part: Part, now: int)
    requires Loaded(s) && (part.CallPart? || part.ResultPart?)
    ensures Loaded(AddPart(s, part, now))
  {
    UpsertLoads(s.segments, if part.CallPart? then PutCall(part.call) else PutResult(part.result));
  }

  lemma AddPartLoads(s: State, part: Part, now: int)
    requires Loaded(s)
    ensures Loaded(AddPart(s, part, now))
  {
    match part
    case CallPart(_) => ToolLoads(s, part, now);
    case ResultPart(_) => ToolLoads(s, part, now);
    case ReasoningPart(text, open, duration) => ThoughtLoads(s, text, open, duration, now);
    case TaskPart(task) => TaskLoads(s, task, now);
    case TextPart(text, _) => SimplePush(s, TextSeg(text));
    case InstructionPart(content) => SimplePush(s, InstructionSeg(content));
    case MediaPart(body) => SimplePush(s, MediaSeg(body));
    case TruncatedPart => SimplePush(s, TruncatedSeg);
    case IterationCapPart => SimplePush(s, IterationCapSeg);
    case SourcePart(_) =>
    case OtherPart(_) =>
  }

  lemma {:induction false} LoadKeeps(parts: seq<Part>, now: int)
    ensures Loaded(Load(parts, now))
  {
    if parts == [] {
      EmptyInv();
    } else {
      LoadKeeps(parts[..|parts| - 1], now);
      AddPartLoads(Load(parts[..|parts| - 1], now), parts[|parts| - 1], now);
    }
  }

  // ---------------------------------------------------------------- reloading a rendering

  /** What a segment becomes after rendering and loading; nothing, if it left no trace. */
  function ReloadOf(seg: Segment, now: int): seq<Segment> {
    if !Visible(seg) then []
    else
      match seg
      case ReasoningSeg(_, _, _, _, _) => [seg.(startTime := now)]
      case TaskSeg(task) => [TaskSeg(ShownTask(task, false))]
      case ToolSeg(call, result) =>
        [ToolSeg(if call.Some? then Some(SetCallState(call.value, result)) else None, result)]
      case _ => [seg]
  }

  function ReloadAll(segs: seq<Segment>, now: int): seq<Segment> {
    if segs == [] then []
    else
      var n := |segs| - 1;
      ReloadAll(segs[..n], now) + ReloadOf(segs[n], now)
  }

  lemma {:induction false} ReloadHolds(segs: seq<Segment>, now: int, id: string)
    requires forall i :: 0 <= i < |segs| ==> !Holds(segs[i], id)
    ensures FindTool(ReloadAll(segs, now), id) == |ReloadAll(segs, now)|
  {
    if segs != [] {
      var n := |segs| - 1;
      ReloadHolds(segs[..n], now, id);
      var front, back := ReloadAll(segs[..n], now), ReloadOf(segs[n], now);
      if back != [] {
        assert !Holds(back[0], id);
        FoundNowhere(front, back[0], id);
        assert front + back == front + [back[0]];
      }
    }
  }

  lemma {:induction false} FoundNowhere(segs: seq<Segment>, x: Segment, id: string)
    requires FindTool(segs, id) == |segs| && !Holds(x, id)
    ensures FindTool(segs + [x], id) == |segs| + 1
  {
    if segs != [] {
      assert (segs + [x])[1..] == segs[1..] + [x];
      FoundNowhere(segs[1..], x, id);
    }
  }

  /** Number of thoughts in a timeline. */
  function Thoughts(segs: seq<Segment>): nat {
    |Collect(ThoughtOf, segs)|
  }

  /** The thoughts of the timeline are numbered 0, 1, 2, ... */
  predicate Ordered(segs: seq<Segment>) {
    forall k :: 0 <= k < Thoughts(segs) ==> Collect(ThoughtOf, segs)[k].0 == k
  }

  predicate Reloadable(segs: seq<Segment>) {
    (forall i :: 0 <= i < |segs| ==> OneId(segs[i])) && Distinct(segs) && Ordered(segs)
  }

  lemma ReloadablePrefix(front: seq<Segment>, x: Segment)
    requires Reloadable(front + [x])
    ensures Reloadable(front) && OneId(x)
    ensures x.ReasoningSeg? ==> x.index == Thoughts(front)
    ensures forall i :: 0 <= i < |front| && x.ToolSeg? ==> !Holds(front[i], ToolId(x).value)
  {
    var segs := front + [x];
    CollectPush(ThoughtOf, front, x);
    assert forall k :: 0 <= k < Thoughts(front) ==> Collect(ThoughtOf, front)[k] == Collect(ThoughtOf, segs)[k];
    assert x.ReasoningSeg? ==> Collect(ThoughtOf, segs)[Thoughts(front)] == ThoughtOf(x)[0];
    assert OneId(segs[|front|]);
    forall i | 0 <= i < |front|
      ensures OneId(front[i]) && (x.ToolSeg? ==> !Holds(front[i], ToolId(x).value))
    {
      assert OneId(segs[i]) && segs[i] == front[i];
      assert x.ToolSeg? && front[i].ToolSeg? ==> ToolId(segs[i]) != ToolId(segs[|front|]);
    }
    forall i, j | 0 <= i < j < |front| && front[i].ToolSeg? && front[j].ToolSeg?
      ensures ToolId(front[i]) != ToolId(front[j])
    {
      assert ToolId(segs[i]) != ToolId(segs[j]);
    }
  }

  lemma LoadPush(parts: seq<Part>, p: Part, now: int)
    ensures Load(parts + [p], now) == AddPart(Load(parts, now), p, now)
  {
    assert (parts + [p])[..|parts|] == parts;
  }

  lemma LoadPair(parts: seq<Part>, p: Part, q: Part, now: int)
    ensures Load(parts + [p, q], now) == AddPart(AddPart(Load(parts, now), p, now), q, now)
  {
    var front := parts + [p];
    assert parts + [p, q] == front + [q];
    LoadPush(front, q, now);
    LoadPush(parts, p, now);
  }

  /** Where the next segment finds the loaded state. */
  predicate Awaits(s: State, x: Segment) {
    && (x.ReasoningSeg? ==> x.index == |s.blocks|)
    && OneId(x) && (x.ToolSeg? ==> FindTool(s.segments, ToolId(x).value) == |s.segments|)
  }

  /** Loading added to `s` what the segment becomes. */
  predicate Gained(s: State, after: State, x: Segment, now: int) {
    && after.segments == s.segments + ReloadOf(x, now)
    && |after.blocks| == |s.blocks| + |ThoughtOf(x)|
    && after.sources == s.sources
    && (s.current == -1 && QuietSegment(x) ==> after.current == -1)
  }

  /** Loading the part of a segment that shows one part. */
  lemma LoadSingle(s: State, x: Segment, now: int)
    requires Awaits(s, x) && |PartsOf(x, false)| == 1
    ensures Gained(s, AddPart(s, PartsOf(x, false)[0], now), x, now)
  {
    if x.ToolSeg? {
      UpsertByIndex(s.segments, if x.call.Some? then PutCall(x.call.value) else PutResult(x.result.value));
    }
  }

  lemma LoadToolPair(s: State, x: Segment, now: int)
    requires x.ToolSeg? && x.call.Some? && x.result.Some? && Awaits(s, x)
    ensures Gained(s, AddPart(AddPart(s, CallPart(x.call.value), now), ResultPart(x.result.value), now), x, now)
  {
    UpsertPair(s.segments, x.call.value, x.result.value);
    assert ReloadOf(x, now) == [ToolSeg(Some(SetCallState(x.call.value, x.result)), x.result)];
  }

  lemma {:induction false} UpsertPair(segs: seq<Segment>, c: ToolCall, r: ToolResult)
    requires c.id == r.id && FindTool(segs, c.id) == |segs|
    ensures Upsert(Upsert(segs, PutCall(c)), PutResult(r)) == segs + [ToolSeg(Some(SetCallState(c, Some(r))), Some(r))]
  {
    var one := ToolSeg(Some(c), None);
    UpsertByIndex(segs, PutCall(c));
    FoundLast(segs, one, c.id);
    UpsertByIndex(segs + [one], PutResult(r));
    ReplaceLast(segs, one, PutResult(r).Patched(one));
  }

  lemma ReplaceLast(segs: seq<Segment>, x: Segment, y: Segment)
    ensures (segs + [x])[|segs| := y] == segs + [y]
  {
  }

  /** Loading the parts of one more segment adds what that segment becomes. */
  lemma LoadSegment(parts: seq<Part>, x: Segment, now: int)
    requires Awaits(Load(parts, now), x)
    ensures Gained(Load(parts, now), Load(parts + PartsOf(x, false), now), x, now)
  {
    var s, shown := Load(parts, now), PartsOf(x, false);
    if shown == [] {
      assert parts + shown == parts && s.segments + [] == s.segments;
      assert ReloadOf(x, now) == [];
    } else if |shown| == 1 {
      LoadPush(parts, shown[0], now);
      assert shown == [shown[0]];
      LoadSingle(s, x, now);
    } else {
      LoadPair(parts, shown[0], shown[1], now);
      assert shown == [shown[0], shown[1]];
      LoadToolPair(s, x, now);
    }
  }

  /** What loading the rendering of a timeline gives. */
  predicate ComesBack(s: State, segs: seq<Segment>, now: int) {
    && s.segments == ReloadAll(segs, now)
    && |s.blocks| == Thoughts(segs)
    && s.sources == []
    && ((forall i :: 0 <= i < |segs| ==> QuietSegment(segs[i])) ==> s.current == -1)
  }

  /** A state that holds the reloaded front gains the next segment. */
  lemma ComesBackLonger(s: State, s1: State, front: seq<Segment>, x: Segment, now: int)
    requires ComesBack(s, front, now) && Gained(s, s1, x, now)
    ensures ComesBack(s1, front + [x], now)
  {
    var segs := front + [x];
    assert segs[..|front|] == front && segs[|front|] == x;
    CollectPush(ThoughtOf, front, x);
    assert (forall i :: 0 <= i < |segs| ==> QuietSegment(segs[i])) ==> forall i :: 0 <= i < |front| ==> QuietSegment(front[i]) by {
      assert forall i :: 0 <= i < |front| ==> segs[i] == front[i];
    }
  }

  /** The next segment of a reloadable timeline is new to what came back so far. */
  lemma NextAwaits(s: State, front: seq<Segment>, x: Segment, now: int)
    requires Reloadable(front + [x]) && ComesBack(s, front, now)
    ensures Awaits(s, x)
  {
    ReloadablePrefix(front, x);
    CollectPush(ThoughtOf, front, x);
    if x.ToolSeg? {
      ReloadHolds(front, now, ToolId(x).value);
    }
  }

  /** Loading a whole rendering brings every visible segment back, in order. */
  lemma {:induction false} LoadRendering(segs: seq<Segment>, now: int)
    requires Reloadable(segs)
    ensures ComesBack(Load(Render(segs, false), now), segs, now)
  {
    if segs != [] {
      var n := |segs| - 1;
      assert segs == segs[..n] + [segs[n]];
      ReloadablePrefix(segs[..n], segs[n]);
      LoadRendering(segs[..n], now);
      var shown := Render(segs[..n], false);
      NextAwaits(Load(shown, now), segs[..n], segs[n], now);
      LoadSegment(shown, segs[n], now);
      RenderPush(segs[..n], segs[n], false);
      ComesBackLonger(Load(shown, now), Load(shown + PartsOf(segs[n], false), now), segs[..n], segs[n], now);
    }
  }

  lemma LoadSource(parts: seq<Part>, source: Source, now: int)
    ensures Load(parts + [SourcePart(source)], now) == Load(parts, now).(sources := Load(parts, now).sources + [source])
  {
    LoadPush(parts, SourcePart(source), now);
  }

  lemma FooterPush(parts: seq<Part>, sources: seq<Source>, last: Source)
    ensures parts + Footer(sources + [last]) == (parts + Footer(sources)) + [SourcePart(last)]
  {
  }

  lemma {:induction false} LoadFooter(parts: seq<Part>, sources: seq<Source>, now: int)
    ensures Load(parts + Footer(sources), now)
            == Load(parts, now).(sources := Load(parts, now).sources + sources)
  {
    if sources == [] {
      assert parts + Footer(sources) == parts;
    } else {
      var n, s := |sources| - 1, Load(parts, now);
      LoadFooter(parts, sources[..n], now);
      FooterPush(parts, sources[..n], sources[n]);
      assert sources == sources[..n] + [sources[n]];
      LoadSource(parts + Footer(sources[..n]), sources[n], now);
      assert (s.sources + sources[..n]) + [sources[n]] == s.sources + sources;
    }
  }

  /** The rebuilt state of any reloadable state. */
  lemma RebuiltState(s: State, now: int)
    requires Reloadable(s.segments)
    ensures var r := FromParts(Build(s, false), now);
            && r.segments == ReloadAll(s.segments, now) && r.sources == s.sources
            && |r.blocks| == Thoughts(s.segments)
            && Loaded(r)
            && ((forall i :: 0 <= i < |s.segments| ==> QuietSegment(s.segments[i])) ==> r.current == -1)
  {
    LoadRendering(s.segments, now);
    LoadFooter(Render(s.segments, false), s.sources, now);
    LoadKeeps(Build(s, false), now);
  }

  // ---------------------------------------------------------------- finalised states come back

  lemma ReloadCoreOf(x: Segment, now: int, b: nat)
    requires Coherent(x) && QuietSegment(x) && (x.TaskSeg? ==> x.task.state != TaskPending)
    requires x.ReasoningSeg? ==> x.index < b
    ensures Core(ReloadOf(x, now), b) == CoreOf(x, b)
  {
    if Visible(x) {
      CorePush([], ReloadOf(x, now)[0], b);
      assert [] + [ReloadOf(x, now)[0]] == ReloadOf(x, now);
    }
  }

  lemma {:induction false} ReloadCore(segs: seq<Segment>, now: int, b: nat)
    requires Tools(segs) && Live(segs)
    requires forall i :: 0 <= i < |segs| ==> QuietSegment(segs[i])
    requires forall i :: 0 <= i < |segs| && segs[i].ReasoningSeg? ==> segs[i].index < b
    ensures Core(ReloadAll(segs, now), b) == Core(segs, b)
  {
    if segs != [] {
      var n := |segs| - 1;
      var front, x := segs[..n], segs[n];
      assert segs == front + [x];
      forall i, j | 0 <= i < j < |front| && front[i].ToolSeg? && front[j].ToolSeg?
        ensures ToolId(front[i]) != ToolId(front[j])
      {
        assert ToolId(segs[i]) != ToolId(segs[j]);
      }
      ReloadCore(front, now, b);
      CoreAppend(ReloadAll(front, now), ReloadOf(x, now), b);
      CorePush(front, x, b);
      assert Coherent(x) && QuietSegment(x);
      ReloadCoreOf(x, now, b);
    }
  }

  predicate Kept(segs: seq<Segment>) {
    Tools(segs) && PlainTools(segs) && TextShape(segs) && Live(segs)
  }

  lemma KeptPrefix(front: seq<Segment>, x: Segment)
    requires Kept(front + [x])
    ensures Kept(front)
    ensures x.TextSeg? ==> !EndsInText(front)
  {
    var segs := front + [x];
    forall i, j | 0 <= i < j < |front| && front[i].ToolSeg? && front[j].ToolSeg?
      ensures ToolId(front[i]) != ToolId(front[j])
    {
      assert ToolId(segs[i]) != ToolId(segs[j]);
    }
    assert forall i :: 0 <= i < |front| ==> segs[i] == front[i];
    assert front != [] ==> !(segs[|front| - 1].TextSeg? && segs[|front|].TextSeg?);
  }

  lemma {:induction false} ReloadEnd(segs: seq<Segment>, now: int)
    requires Kept(segs) && !EndsInText(segs)
    ensures !EndsInText(ReloadAll(segs, now))
  {
    if segs != [] {
      assert Coherent(segs[|segs| - 1]);
      assert Visible(segs[|segs| - 1]);
    }
  }

  lemma {:induction false} ReloadTextShape(segs: seq<Segment>, now: int)
    requires Kept(segs)
    ensures TextShape(ReloadAll(segs, now))
    ensures PlainTools(ReloadAll(segs, now)) && Live(ReloadAll(segs, now))
    ensures forall i :: 0 <= i < |ReloadAll(segs, now)| ==> Coherent(ReloadAll(segs, now)[i])
  {
    if segs != [] {
      var n := |segs| - 1;
      var front, x := segs[..n], segs[n];
      assert segs == front + [x];
      KeptPrefix(front, x);
      ReloadTextShape(front, now);
      assert Coherent(x);
      var before := ReloadAll(front, now);
      if Visible(x) {
        var y := ReloadOf(x, now)[0];
        assert Coherent(y);
        if x.TextSeg? {
          ReloadEnd(front, now);
        }
        PushShape(before, y);
        assert before + ReloadOf(x, now) == before + [y];
      }
    }
  }

  lemma ThoughtsBounded(s: State, i: nat)
    requires Inv(s) && i < |s.segments| && s.segments[i].ReasoningSeg?
    ensures s.segments[i].index < |s.blocks|
  {
    ThoughtListed(s.segments, i);
  }

  /** The same thoughts, all started now. */
  predicate Restarted(a: seq<Thought>, c: seq<Thought>, now: int) {
    |a| == |c| && forall k :: 0 <= k < |a| ==> a[k] == (c[k].0, c[k].1.(startTime := now))
  }

  lemma ReloadThought(x: Segment, now: int)
    ensures Restarted(Collect(ThoughtOf, ReloadOf(x, now)), ThoughtOf(x), now)
  {
    if Visible(x) {
      var y := ReloadOf(x, now)[0];
      CollectPush(ThoughtOf, [], y);
      assert [] + [y] == ReloadOf(x, now);
    }
  }

  lemma {:induction false} ReloadThoughts(segs: seq<Segment>, now: int)
    ensures Restarted(Collect(ThoughtOf, ReloadAll(segs, now)), Collect(ThoughtOf, segs), now)
  {
    if segs != [] {
      var front, x := segs[..|segs| - 1], segs[|segs| - 1];
      assert segs == front + [x];
      ReloadThoughts(front, now);
      ReloadThought(x, now);
      CollectPush(ThoughtOf, front, x);
      CollectAppend(ThoughtOf, ReloadAll(front, now), ReloadOf(x, now));
    }
  }

  lemma {:induction false} CoreLatest(segs: seq<Segment>, t: TaskType, b: nat)
    ensures LatestState(Core(segs, b), t) == LatestState(segs, t)
  {
    if segs != [] {
      var n := |segs| - 1;
      var front, x := segs[..n], segs[n];
      assert segs == front + [x];
      CoreLatest(front, t, b);
      PushShape(front, x);
      CorePush(front, x, b);
      if Visible(x) {
        PushShape(Core(front, b), CoreOf(x, b)[0]);
        assert Core(segs, b) == Core(front, b) + [CoreOf(x, b)[0]];
      } else {
        assert Core(segs, b) == Core(front, b);
      }
    }
  }

  /** The rebuilt blocks are the closed ones, started now. */
  lemma ReloadedBlocks(f: State, r: State, now: int)
    requires Quiet(f) && Mirror(f.segments, f.blocks) && Mirror(r.segments, r.blocks)
    requires Restarted(Collect(ThoughtOf, r.segments), Collect(ThoughtOf, f.segments), now)
    ensures BlocksAlike(f.blocks, r.blocks, |f.blocks|)
  {
    forall k | 0 <= k < |f.blocks|
      ensures r.blocks[k] == f.blocks[k].(startTime := now) && !f.blocks[k].streaming
    {
      assert Numbered(r.blocks)[k].1 == r.blocks[k] && Numbered(f.blocks)[k].1 == f.blocks[k];
      assert f.blocks[k] in f.blocks;
    }
  }

  lemma RebuiltIsSimilar(f: State, now: int)
    requires Inv(f) && Quiet(f)
    ensures Similar(f, FromParts(Build(f, false), now), |f.blocks|)
  {
    var r, b := FromParts(Build(f, false), now), |f.blocks|;
    assert forall i :: 0 <= i < |f.segments| ==> Coherent(f.segments[i]) ==> OneId(f.segments[i]);
    RebuiltState(f, now);
    forall i | 0 <= i < |f.segments| && f.segments[i].ReasoningSeg?
      ensures f.segments[i].index < b
    {
      ThoughtsBounded(f, i);
    }
    ReloadCore(f.segments, now, b);
    ReloadTextShape(f.segments, now);
    ReloadThoughts(f.segments, now);
    ReloadedBlocks(f, r, now);
    SameTable(f, r, b);
  }

  lemma SameTable(f: State, r: State, b: nat)
    requires Linked(f.segments, f.tasks) && Linked(r.segments, r.tasks) && Core(f.segments, b) == Core(r.segments, b)
    ensures f.tasks.rag == r.tasks.rag && f.tasks.generating == r.tasks.generating
            && f.tasks.compression == r.tasks.compression
  {
    CoreLatest(f.segments, Rag, b);
    CoreLatest(r.segments, Rag, b);
    CoreLatest(f.segments, Generating, b);
    CoreLatest(r.segments, Generating, b);
    CoreLatest(f.segments, Compression, b);
    CoreLatest(r.segments, Compression, b);
  }

  /** Bisimulation: for every finalised session, the state rebuilt from its message renders the
      same parts as the original after any further steps, although counters, start times and
      empty text segments are gone. */
  lemma {:induction false} RebuildIsBisimilar(before: seq<Timed>, end: int, now: int, after: seq<Timed>, streaming: bool)
    ensures var f := Finalize(Run(EMPTY_STATE, before), end);
            var r := FromParts(Build(f, false), now);
            Build(Run(f, after), streaming) == Build(Run(r, after), streaming)
  {
    var s := Run(EMPTY_STATE, before);
    EmptyInv();
    RunKeeps(EMPTY_STATE, before);
    FinalizeKeeps(s, end);
    FinalizeQuiets(s, end);
    var f := Finalize(s, end);
    RebuiltIsSimilar(f, now);
    SimilarRun(f, FromParts(Build(f, false), now), |f.blocks|, after);
    SimilarRenders(Run(f, after), Run(FromParts(Build(f, false), now), after), |f.blocks|, streaming);
  }

  /** Finalising first is needed: a thought that has ended but not been finalised is still the
      open one, and its rebuilt copy is not. */
  lemma UnfinalisedRebuildDiverges()
    ensures var s := Run(EMPTY_STATE, [Timed(Event(ReasoningStart), 0), Timed(Event(ReasoningEnd), 0)]);
            var more := Event(ReasoningDelta("x"));
            Build(Do(s, more, 0), false) != Build(Do(FromParts(Build(s, false), 0), more, 0), false)
  {
    var steps := [Timed(Event(ReasoningStart), 0), Timed(Event(ReasoningEnd), 0)];
    assert steps[..1] == [Timed(Event(ReasoningStart), 0)] && steps[..1][..0] == [];
    var s1 := Do(EMPTY_STATE, Event(ReasoningStart), 0);
    assert Run(EMPTY_STATE, steps[..1]) == s1;
    assert s1.segments == [ReasoningSeg(0, "", true, 0, None)];
    var s := Do(s1, Event(ReasoningEnd), 0);
    assert s.segments == [ReasoningSeg(0, "", false, 0, Some(0))] && s.current == 0 && |s.blocks| == 1;
    var parts := Build(s, false);
    assert parts == [ReasoningPart("", false, Some(0))];
    assert parts[..0] == [];
    var r := FromParts(parts, 0);
    assert r.segments == s.segments && r.current == -1;
    var a, c := Do(s, Event(ReasoningDelta("x")), 0), Do(r, Event(ReasoningDelta("x")), 0);
    PatchThoughtByIndex(s.segments, 0, Grow("x"));
    var again := OpenThought(r, 0);
    assert |r.blocks| == 1 && again.current == 1;
    PatchThoughtByIndex(again.segments, 1, Grow(again.blocks[1].text + "x"));
    assert |a.segments| == 1 && |c.segments| == 2;
    assert c.segments[0].ReasoningSeg? && c.segments[1].ReasoningSeg?;
    assert |Render(a.segments, false)| == 1;
    assert c.segments[1..][0] == c.segments[1] && c.segments[1..][1..] == [];
    assert |Render(c.segments, false)| == 2;
  }

  // ---------------------------------------------------------------- normalisation

  /** Parts pushed through a state and back. */
  function Normalise(parts: seq<Part>, now: int): seq<Part> {
    Build(FromParts(parts, now), false)
  }

  /** A call beside a result shows that result's outcome. */
  predicate Agrees(seg: Segment) {
    seg.ToolSeg? && seg.call.Some? && seg.result.Some? ==>
      seg.call.value.state == Some(if seg.result.value.isError then Error else Done)
  }

  predicate AllAgree(segs: seq<Segment>) {
    forall i :: 0 <= i < |segs| ==> Agrees(segs[i])
  }

  lemma ReloadedRender(x: Segment, now: int)
    ensures Render(ReloadOf(x, now), false) == PartsOf(x, false) <==> Agrees(x)
    ensures |Render(ReloadOf(x, now), false)| == |PartsOf(x, false)|
  {
    if Visible(x) {
      var y := ReloadOf(x, now)[0];
      RenderPush([], y, false);
      assert [] + [y] == ReloadOf(x, now);
      assert Render(ReloadOf(x, now), false) == PartsOf(y, false);
      if x.ToolSeg? && x.call.Some? && x.result.Some? {
        assert PartsOf(y, false)[0] == CallPart(SetCallState(x.call.value, x.result));
        assert PartsOf(x, false)[0] == CallPart(x.call.value);
        assert PartsOf(x, false)[1] == PartsOf(y, false)[1] == ResultPart(x.result.value);
      }
    }
  }

  /** A reloaded timeline renders the same parts exactly when every call agreed with its result. */
  lemma {:induction false} ReloadedRendersSame(segs: seq<Segment>, now: int)
    ensures Render(ReloadAll(segs, now), false) == Render(segs, false) <==> AllAgree(segs)
    ensures |Render(ReloadAll(segs, now), false)| == |Render(segs, false)|
  {
    if segs != [] {
      var n := |segs| - 1;
      var front, x := segs[..n], segs[n];
      assert segs == front + [x];
      ReloadedRendersSame(front, now);
      ReloadedRender(x, now);
      RenderPush(front, x, false);
      RenderAppend(ReloadAll(front, now), ReloadOf(x, now), false);
      var a, c := Render(ReloadAll(front, now), false), Render(front, false);
      var d, e := Render(ReloadOf(x, now), false), PartsOf(x, false);
      assert |a| == |c|;
      SplitEqual(a, d, c, e);
      assert AllAgree(segs) <==> AllAgree(front) && Agrees(x);
    }
  }

  lemma SplitEqual<T>(a: seq<T>, d: seq<T>, c: seq<T>, e: seq<T>)
    requires |a| == |c|
    ensures a + d == c + e <==> a == c && d == e
  {
    if a + d == c + e {
      assert (a + d)[..|a|] == a && (c + e)[..|a|] == c;
      assert (a + d)[|a|..] == d && (c + e)[|a|..] == e;
    }
  }

  lemma {:induction false} ReloadAgrees(segs: seq<Segment>, now: int)
    ensures AllAgree(ReloadAll(segs, now))
  {
    if segs != [] {
      ReloadAgrees(segs[..|segs| - 1], now);
    }
  }

  lemma LoadedIsReloadable(s: State)
    requires Loaded(s)
    ensures Reloadable(s.segments)
  {
  }

  /** Normalising is a fixpoint after one pass exactly when, in the state the parts load into,
      every call agrees with its result. */
  lemma FixpointIffAgreeing(parts: seq<Part>, now: int, later: int)
    ensures Normalise(Normalise(parts, now), later) == Normalise(parts, now)
            <==> AllAgree(FromParts(parts, now).segments)
  {
    var s := FromParts(parts, now);
    LoadKeeps(parts, now);
    LoadedIsReloadable(s);
    RebuiltState(s, later);
    ReloadedRendersSame(s.segments, later);
    SplitEqual(Render(ReloadAll(s.segments, later), false), Footer(s.sources), Render(s.segments, false), Footer(s.sources));
  }

  /** Two passes always suffice, for any parts in any order. */
  lemma TwoPassesSuffice(parts: seq<Part>, now: int, later: int, last: int)
    ensures var twice := Normalise(Normalise(parts, now), later);
            Normalise(twice, last) == twice
  {
    var s := FromParts(parts, now);
    LoadKeeps(parts, now);
    LoadedIsReloadable(s);
    RebuiltState(s, later);
    ReloadAgrees(s.segments, later);
    FixpointIffAgreeing(Normalise(parts, now), later, last);
  }

  // ---------------------------------------------------------------- when no id mixes kinds

  predicate SameKind(a: ToolCall, c: ToolCall) {
    a.id == c.id ==> a.PlainCall? == c.PlainCall?
  }

  predicate NoMixing(parts: seq<Part>) {
    forall i, j :: 0 <= i < j < |parts| && parts[i].CallPart? && parts[j].CallPart? ==>
      SameKind(parts[i].call, parts[j].call)
  }

  /** Calls on the timeline keep the kind of the parts they came from. */
  predicate FromCalls(segs: seq<Segment>, parts: seq<Part>) {
    forall i :: 0 <= i < |segs| && segs[i].ToolSeg? && segs[i].call.Some? ==>
      exists j :: 0 <= j < |parts| && parts[j].CallPart? && Origin(parts[j].call, segs[i].call.value)
  }

  predicate Origin(part: ToolCall, call: ToolCall) {
    part.id == call.id && part.PlainCall? == call.PlainCall?
  }

  lemma FromCallsLater(segs: seq<Segment>, parts: seq<Part>, p: Part)
    requires FromCalls(segs, parts)
    ensures FromCalls(segs, parts + [p])
  {
    forall i | 0 <= i < |segs| && segs[i].ToolSeg? && segs[i].call.Some?
      ensures exists j :: 0 <= j < |parts + [p]| && (parts + [p])[j].CallPart? && Origin((parts + [p])[j].call, segs[i].call.value)
    {
      var j :| 0 <= j < |parts| && parts[j].CallPart? && Origin(parts[j].call, segs[i].call.value);
      assert (parts + [p])[j] == parts[j];
    }
  }

  lemma CallAgrees(segs: seq<Segment>, parts: seq<Part>, call: ToolCall)
    requires forall i :: 0 <= i < |segs| ==> OneId(segs[i])
    requires AllAgree(segs) && FromCalls(segs, parts) && NoMixing(parts + [CallPart(call)])
    ensures AllAgree(Upsert(segs, PutCall(call))) && FromCalls(Upsert(segs, PutCall(call)), parts + [CallPart(call)])
  {
    var all := parts + [CallPart(call)];
    FromCallsLater(segs, parts, CallPart(call));
    assert all[|parts|] == CallPart(call);
    UpsertByIndex(segs, PutCall(call));
    var k := FindTool(segs, call.id);
    if k < |segs| && segs[k].call.Some? {
      assert OneId(segs[k]) && Agrees(segs[k]);
      var j :| 0 <= j < |parts| && parts[j].CallPart? && Origin(parts[j].call, segs[k].call.value);
      assert all[j] == parts[j] && SameKind(all[j].call, all[|parts|].call);
      assert Origin(all[j].call, MergeCall(segs[k].call.value, call));
    }
    assert Origin(call, call) && Origin(call, if k < |segs| then SetCallState(call, segs[k].result) else call);
  }

  lemma ResultAgrees(segs: seq<Segment>, parts: seq<Part>, result: ToolResult)
    requires AllAgree(segs) && FromCalls(segs, parts)
    ensures AllAgree(Upsert(segs, PutResult(result))) && FromCalls(Upsert(segs, PutResult(result)), parts)
  {
    UpsertByIndex(segs, PutResult(result));
    var k := FindTool(segs, result.id);
    if k < |segs| && segs[k].call.Some? {
      var j :| 0 <= j < |parts| && parts[j].CallPart? && Origin(parts[j].call, segs[k].call.value);
      assert Origin(parts[j].call, SetCallState(segs[k].call.value, Some(result)));
    }
  }

  lemma {:induction false} UnmixedAgrees(parts: seq<Part>, now: int)
    requires NoMixing(parts)
    ensures AllAgree(Load(parts, now).segments) && FromCalls(Load(parts, now).segments, parts)
  {
    if parts != [] {
      var n := |parts| - 1;
      var front, p := parts[..n], parts[n];
      assert parts == front + [p];
      UnmixedAgrees(front, now);
      LoadKeeps(front, now);
      var segs := Load(front, now).segments;
      FromCallsLater(segs, front, p);
      match p
      case CallPart(call) => CallAgrees(segs, front, call);
      case ResultPart(result) => ResultAgrees(segs, parts, result);
      case _ =>
    }
  }

  /** When no tool id mixes MCP and plain calls, one pass suffices, whatever the order and
      number of calls and results. */
  lemma UnmixedIsFixpoint(parts: seq<Part>, now: int, later: int)
    requires NoMixing(parts)
    ensures Normalise(Normalise(parts, now), later) == Normalise(parts, now)
  {
    UnmixedAgrees(parts, now);
    FixpointIffAgreeing(parts, now, later);
  }

  /** The message of a finalised session is a fixpoint at once. */
  lemma FinalMessageIsNormal(before: seq<Timed>, end: int, now: int)
    ensures var message := Build(Finalize(Run(EMPTY_STATE, before), end), false);
            Normalise(message, now) == message
  {
    RebuildIsBisimilar(before, end, now, [], false);
  }

  /** With mixed kinds a second pass can change the message: a late MCP call replaces a settled
      plain one and shows as running beside its result. */
  lemma MixedKindsNeedTwoPasses()
    ensures var parts := [CallPart(PlainCall("t", None, None, None, Some(Done))),
                          ResultPart(ToolResult(PlainResult, "t", "", false)),
                          CallPart(McpCall("t", None, None, None, Some(Running)))];
            Normalise(Normalise(parts, 0), 0) != Normalise(parts, 0)
  {
    var a, c := PlainCall("t", None, None, None, Some(Done)), McpCall("t", None, None, None, Some(Running));
    var res := ToolResult(PlainResult, "t", "", false);
    var parts := [CallPart(a), ResultPart(res), CallPart(c)];
    assert parts[..2][..1] == [CallPart(a)] && parts[..2][..1][..0] == [] && parts[..2][1] == ResultPart(res);
    assert Load(parts[..2][..1], 0).segments == [ToolSeg(Some(a), None)];
    assert Load(parts[..2], 0).segments == [ToolSeg(Some(a), Some(res))];
    var segs := FromParts(parts, 0).segments;
    assert segs == [ToolSeg(Some(c), Some(res))];
    assert !Agrees(segs[0]);
    FixpointIffAgreeing(parts, 0, 0);
  }
}
