/** What every session step keeps: the shape of the timeline, the mirror between
    reasoning segments and blocks, and the link between the table of task states and the
    timeline's tasks.
  */
module StreamInvariants {
  import opened Options
  import opened ChatParts
  import opened Timeline
  import opened TimelineFacts

  // ---------------------------------------------------------------- tags and alikeness

  /** What a segment keeps for ever once it is on the timeline. */
  datatype Tag =
    | TextTag | ThoughtTag(index: nat) | TaskTag(taskType: TaskType) | ToolTag(id: Option<string>)
    | MediaTag(body: Payload) | TruncatedTag | IterationCapTag | InstructionTag(content: string)

  function ToolId(seg: Segment): Option<string>
    requires seg.ToolSeg?
  {
    if seg.call.Some? then Some(seg.call.value.id)
    else if seg.result.Some? then Some(seg.result.value.id) else None
  }

  function TagOf(seg: Segment): Tag {
    match seg
    case TextSeg(_) => TextTag
    case ReasoningSeg(k, _, _, _, _) => ThoughtTag(k)
    case TaskSeg(task) => TaskTag(task.taskType)
    case ToolSeg(_, _) => ToolTag(ToolId(seg))
    case MediaSeg(body) => MediaTag(body)
    case TruncatedSeg => TruncatedTag
    case IterationCapSeg => IterationCapTag
    case InstructionSeg(content) => InstructionTag(content)
  }

  function Tags(segs: seq<Segment>): seq<Tag> {
    seq(|segs|, i requires 0 <= i < |segs| => TagOf(segs[i]))
  }

  /** Same segment, possibly with another tool, task or reasoning state. */
  predicate Alike(x: Segment, y: Segment) {
    TagOf(x) == TagOf(y) && (x.TextSeg? ==> x == y)
  }

  predicate AllAlike(a: seq<Segment>, b: seq<Segment>) {
    |a| == |b| && forall i :: 0 <= i < |a| ==> Alike(a[i], b[i])
  }

  // ---------------------------------------------------------------- the invariant

  /** Call and result of a tool segment carry one id, and a settled pair agrees. */
  predicate Coherent(seg: Segment) {
    seg.ToolSeg? ==>
      && (seg.call.Some? || seg.result.Some?)
      && (seg.call.Some? && seg.result.Some? ==>
            && seg.call.value.id == seg.result.value.id
            && seg.call.value.state == Some(if seg.result.value.isError then Error else Done))
  }

  predicate Distinct(segs: seq<Segment>) {
    forall i, j :: 0 <= i < j < |segs| && segs[i].ToolSeg? && segs[j].ToolSeg? ==> ToolId(segs[i]) != ToolId(segs[j])
  }

  predicate PlainTools(segs: seq<Segment>) {
    forall i :: 0 <= i < |segs| && segs[i].ToolSeg? && segs[i].call.Some? ==> segs[i].call.value.PlainCall?
  }

  predicate Tools(segs: seq<Segment>) {
    (forall i :: 0 <= i < |segs| ==> Coherent(segs[i])) && Distinct(segs)
  }

  /** Two text segments never touch, so an empty one never hides a join; instructions are not empty. */
  predicate TextShape(segs: seq<Segment>) {
    && (forall i :: 0 <= i < |segs| - 1 ==> !(segs[i].TextSeg? && segs[i + 1].TextSeg?))
    && (forall i :: 0 <= i < |segs| && segs[i].InstructionSeg? ==> segs[i].content != "")
  }

  /** No timeline task is still to be started. */
  predicate Live(segs: seq<Segment>) {
    forall i :: 0 <= i < |segs| && segs[i].TaskSeg? ==> segs[i].task.state != TaskPending
  }

  type Thought = (nat, Block)

  function ThoughtOf(seg: Segment): seq<Thought> {
    if seg.ReasoningSeg? then [(seg.index, Block(seg.text, seg.startTime, seg.duration, seg.streaming))] else []
  }

  function Numbered(blocks: seq<Block>): seq<Thought> {
    seq(|blocks|, k requires 0 <= k < |blocks| => (k, blocks[k]))
  }

  /** Reasoning segments and blocks correspond one to one, in order, with equal contents. */
  predicate Mirror(segs: seq<Segment>, blocks: seq<Block>) {
    Collect(ThoughtOf, segs) == Numbered(blocks)
  }

  predicate OnLastBlock(s: State) {
    s.current == -1 || s.current == |s.blocks| - 1
  }

  function LatestState(segs: seq<Segment>, t: TaskType): TaskState {
    var k := LastTask(segs, t);
    if k >= 0 then segs[k].task.state else TaskPending
  }

  /** The task table shows the state of the last timeline task of each kind. */
  predicate Linked(segs: seq<Segment>, t: TaskTable) {
    && t.rag == LatestState(segs, Rag)
    && t.generating == LatestState(segs, Generating)
    && t.compression == LatestState(segs, Compression)
  }

  predicate Inv(s: State) {
    && Tools(s.segments) && PlainTools(s.segments) && TextShape(s.segments) && Live(s.segments)
    && Mirror(s.segments, s.blocks) && OnLastBlock(s)
    && Linked(s.segments, s.tasks)
  }

  // ---------------------------------------------------------------- updates, segment by segment

  /** The three ways a step edits in place: tool segments only, tasks only, thoughts only. */
  predicate ToolEdit(a: seq<Segment>, b: seq<Segment>) {
    |a| == |b| && forall i :: 0 <= i < |a| ==> a[i] == b[i] || (a[i].ToolSeg? && b[i].ToolSeg? && ToolId(a[i]) == ToolId(b[i]))
  }

  predicate TaskEdit(a: seq<Segment>, b: seq<Segment>) {
    |a| == |b| && forall i :: 0 <= i < |a| ==>
      a[i] == b[i] || (a[i].TaskSeg? && b[i].TaskSeg? && a[i].task.taskType == b[i].task.taskType)
  }

  predicate ThoughtEdit(a: seq<Segment>, b: seq<Segment>) {
    |a| == |b| && forall i :: 0 <= i < |a| ==>
      a[i] == b[i] || (a[i].ReasoningSeg? && b[i].ReasoningSeg? && a[i].index == b[i].index)
  }

  lemma EditsAreAlike(a: seq<Segment>, b: seq<Segment>)
    requires ToolEdit(a, b) || TaskEdit(a, b) || ThoughtEdit(a, b)
    ensures AllAlike(a, b)
  {
  }

  lemma AlikeKeepsText(a: seq<Segment>, b: seq<Segment>)
    requires AllAlike(a, b)
    ensures TextShape(a) ==> TextShape(b)
    ensures Tags(a) == Tags(b)
  {
    assert forall i :: 0 <= i < |a| ==> Alike(a[i], b[i]);
  }

  lemma {:induction false} LatestByTag(a: seq<Segment>, b: seq<Segment>, t: TaskType)
    requires |a| == |b| && forall i :: 0 <= i < |a| ==> IsTask(a[i], t) == IsTask(b[i], t)
    ensures LastTask(a, t) == LastTask(b, t)
  {
    if a != [] && !IsTask(a[|a| - 1], t) {
      LatestByTag(a[..|a| - 1], b[..|b| - 1], t);
    }
  }

  lemma ToolEditKeeps(a: seq<Segment>, b: seq<Segment>, t: TaskType)
    requires ToolEdit(a, b)
    ensures Collect(ThoughtOf, a) == Collect(ThoughtOf, b)
    ensures LatestState(a, t) == LatestState(b, t)
    ensures Live(a) ==> Live(b)
  {
    LatestByTag(a, b, t);
    CollectPointwise(ThoughtOf, a, b);
  }

  lemma ThoughtEditKeeps(a: seq<Segment>, b: seq<Segment>, t: TaskType)
    requires ThoughtEdit(a, b)
    ensures LatestState(a, t) == LatestState(b, t)
    ensures Live(a) ==> Live(b)
    ensures Tools(a) ==> Tools(b)
    ensures PlainTools(a) ==> PlainTools(b)
  {
    LatestByTag(a, b, t);
    forall i, j | 0 <= i < j < |a| && b[i].ToolSeg? && b[j].ToolSeg?
      ensures a[i] == b[i] && a[j] == b[j]
    {
    }
  }

  lemma TaskEditKeeps(a: seq<Segment>, b: seq<Segment>)
    requires TaskEdit(a, b)
    ensures Collect(ThoughtOf, a) == Collect(ThoughtOf, b)
    ensures Tools(a) ==> Tools(b)
    ensures PlainTools(a) ==> PlainTools(b)
  {
    CollectPointwise(ThoughtOf, a, b);
    forall i, j | 0 <= i < j < |a| && b[i].ToolSeg? && b[j].ToolSeg?
      ensures a[i] == b[i] && a[j] == b[j]
    {
    }
  }

  // ---------------------------------------------------------------- what the primitive updates do

  /** An upsert edits the one segment of the id, or pushes a fresh tool segment. */
  lemma UpsertShape(segs: seq<Segment>, p: ToolPatch)
    requires Tools(segs) && PlainTools(segs)
    requires p.PutCall? ==> p.call.PlainCall?
    ensures var k, after := FindTool(segs, p.Id()), Upsert(segs, p);
            && (k < |segs| ==> ToolEdit(segs, after))
            && (k == |segs| ==> after == segs + [p.Opened()])
    ensures Tools(Upsert(segs, p)) && PlainTools(Upsert(segs, p))
  {
    UpsertByIndex(segs, p);
    var k := FindTool(segs, p.Id());
    if k < |segs| {
      var x := p.Patched(segs[k]);
      assert Coherent(segs[k]);
      assert Coherent(x) && ToolId(x) == ToolId(segs[k]) == Some(p.Id());
      var after := segs[k := x];
      forall i, j | 0 <= i < j < |after| && after[i].ToolSeg? && after[j].ToolSeg?
        ensures ToolId(after[i]) != ToolId(after[j])
      {
        assert ToolId(segs[i]) != ToolId(segs[j]);
      }
    } else {
      forall i | 0 <= i < |segs| && segs[i].ToolSeg?
        ensures ToolId(segs[i]) != Some(p.Id())
      {
        assert Coherent(segs[i]) && !Holds(segs[i], p.Id());
      }
    }
  }

  lemma MarkPendingShape(segs: seq<Segment>, id: string)
    requires Tools(segs) && PlainTools(segs)
    ensures ToolEdit(segs, MarkPending(segs, id))
    ensures Tools(MarkPending(segs, id)) && PlainTools(MarkPending(segs, id))
  {
    MarkPendingByIndex(segs, id);
    var k := FindTool(segs, id);
    if k < |segs| && Askable(segs[k]) {
      var x := Awaiting(segs[k]);
      assert Coherent(x) && ToolId(x) == ToolId(segs[k]);
      var after := segs[k := x];
      forall i, j | 0 <= i < j < |after| && after[i].ToolSeg? && after[j].ToolSeg?
        ensures ToolId(after[i]) != ToolId(after[j])
      {
        assert ToolId(segs[i]) != ToolId(segs[j]);
      }
    }
  }

  lemma TouchShape(segs: seq<Segment>, t: TaskType, state: TaskState, info: Option<Info>)
    ensures TaskEdit(segs, TouchLatest(segs, t, state, info))
    ensures Live(segs) && state != TaskPending ==> Live(TouchLatest(segs, t, state, info))
    ensures HasTask(segs, t) ==> LatestState(TouchLatest(segs, t, state, info), t) == state
    ensures forall u :: u != t || !HasTask(segs, t) ==>
              LatestState(TouchLatest(segs, t, state, info), u) == LatestState(segs, u)
  {
    TouchLatestByIndex(segs, t, state, info);
    FoundIffHeld(segs, "", t);
    var after := TouchLatest(segs, t, state, info);
    forall u
      ensures LastTask(after, u) == LastTask(segs, u)
    {
      LatestByTag(segs, after, u);
    }
  }

  lemma PushLatest(segs: seq<Segment>, x: Segment, t: TaskType)
    ensures LatestState(segs + [x], t) == if IsTask(x, t) then x.task.state else LatestState(segs, t)
  {
    assert (segs + [x])[..|segs|] == segs;
  }

  lemma PushTools(segs: seq<Segment>, x: Segment)
    requires !x.ToolSeg?
    ensures Tools(segs) ==> Tools(segs + [x])
    ensures PlainTools(segs) ==> PlainTools(segs + [x])
  {
    assert Coherent(x);
  }

  lemma PushText(segs: seq<Segment>, x: Segment)
    requires TextShape(segs) && (x.TextSeg? ==> !EndsInText(segs)) && (x.InstructionSeg? ==> x.content != "")
    ensures TextShape(segs + [x])
  {
  }

  lemma PushShape(segs: seq<Segment>, x: Segment)
    ensures Tools(segs) && !x.ToolSeg? ==> Tools(segs + [x])
    ensures PlainTools(segs) && !x.ToolSeg? ==> PlainTools(segs + [x])
    ensures TextShape(segs) && (x.TextSeg? ==> !EndsInText(segs)) && (x.InstructionSeg? ==> x.content != "")
            ==> TextShape(segs + [x])
    ensures Live(segs) && (x.TaskSeg? ==> x.task.state != TaskPending) ==> Live(segs + [x])
    ensures Collect(ThoughtOf, segs + [x]) == Collect(ThoughtOf, segs) + ThoughtOf(x)
    ensures forall t :: LatestState(segs + [x], t) == if IsTask(x, t) then x.task.state else LatestState(segs, t)
  {
    CollectPush(ThoughtOf, segs, x);
    if !x.ToolSeg? { PushTools(segs, x); }
    if TextShape(segs) && (x.TextSeg? ==> !EndsInText(segs)) && (x.InstructionSeg? ==> x.content != "") {
      PushText(segs, x);
    }
    forall t
      ensures LatestState(segs + [x], t) == if IsTask(x, t) then x.task.state else LatestState(segs, t)
    {
      PushLatest(segs, x, t);
    }
  }

  // ---------------------------------------------------------------- reasoning

  lemma {:induction false} ThoughtItems(segs: seq<Segment>, n: int, item: Thought)
    requires forall i :: 0 <= i < |segs| ==> !IsThought(segs[i], n)
    requires item in Collect(ThoughtOf, segs)
    ensures item.0 != n
  {
    if segs != [] && item !in ThoughtOf(segs[0]) {
      ThoughtItems(segs[1..], n, item);
    }
  }

  /** The thought of index `n` of a list numbered from 0 has `n` thoughts before it. */
  lemma ThoughtPosition(segs: seq<Segment>, items: seq<Thought>, n: nat)
    requires Collect(ThoughtOf, segs) == items && n < |items|
    requires forall k :: 0 <= k < |items| ==> items[k].0 == k
    ensures var k := FindThought(segs, n);
            && k < |segs| && ThoughtOf(segs[k]) == [items[n]]
            && Collect(ThoughtOf, segs[..k]) == items[..n] && Collect(ThoughtOf, segs[k + 1..]) == items[n + 1..]
  {
    var k := FindThought(segs, n);
    if k == |segs| {
      ThoughtItems(segs, n, items[n]);
    } else {
      var front := Collect(ThoughtOf, segs[..k]);
      CollectUpdate(ThoughtOf, segs, k, segs[k]);
      assert segs[k := segs[k]] == segs;
      assert items[|front|] == ThoughtOf(segs[k])[0];
    }
  }

  /** Patching the thought of index `n` patches item `n` of a list numbered from 0. */
  lemma PatchMirror(segs: seq<Segment>, items: seq<Thought>, n: nat, p: ThoughtPatch)
    requires Collect(ThoughtOf, segs) == items && n < |items|
    requires forall k :: 0 <= k < |items| ==> items[k].0 == k
    ensures ThoughtEdit(segs, PatchThought(segs, n, p))
    ensures Collect(ThoughtOf, PatchThought(segs, n, p)) == items[n := (n, Rethought(items[n].1, p))]
  {
    PatchThoughtByIndex(segs, n, p);
    ThoughtPosition(segs, items, n);
    var k := FindThought(segs, n);
    var x, item := Rethink(segs[k], p), (n, Rethought(items[n].1, p));
    CollectUpdate(ThoughtOf, segs, k, x);
    assert ThoughtOf(x) == [item];
    UpdatedItem(items, n, item);
  }

  lemma UpdatedItem(items: seq<Thought>, n: nat, item: Thought)
    requires n < |items|
    ensures items[n := item] == items[..n] + [item] + items[n + 1..]
  {
  }

  function Closing(prior: seq<Block>, blocks: seq<Block>, n: nat): seq<Thought>
    requires n <= |blocks| == |prior|
  {
    seq(|prior|, k requires 0 <= k < |prior| => (k, if k < n then blocks[k] else prior[k]))
  }

  lemma ClosingNext(prior: seq<Block>, blocks: seq<Block>, n: nat)
    requires 0 < n <= |blocks| == |prior|
    ensures Closing(prior, blocks, n) == Closing(prior, blocks, n - 1)[n - 1 := (n - 1, blocks[n - 1])]
  {
  }

  lemma EditTwice(a: seq<Segment>, b: seq<Segment>, c: seq<Segment>)
    requires ThoughtEdit(a, b) && ThoughtEdit(b, c)
    ensures ThoughtEdit(a, c)
  {
    forall i | 0 <= i < |a|
      ensures a[i] == c[i] || (a[i].ReasoningSeg? && c[i].ReasoningSeg? && a[i].index == c[i].index)
    {
      assert a[i] == b[i] || b[i].ReasoningSeg?;
    }
  }

  lemma {:induction false} CloseMirror(segs: seq<Segment>, prior: seq<Block>, now: int, n: nat)
    requires Mirror(segs, prior) && n <= |prior|
    ensures ThoughtEdit(segs, CloseThoughts(segs, FinalBlocks(prior, now), n))
    ensures Collect(ThoughtOf, CloseThoughts(segs, FinalBlocks(prior, now), n)) == Closing(prior, FinalBlocks(prior, now), n)
  {
    var blocks := FinalBlocks(prior, now);
    if n == 0 {
      assert Closing(prior, blocks, 0) == Numbered(prior);
    } else {
      CloseMirror(segs, prior, now, n - 1);
      var before, b := CloseThoughts(segs, blocks, n - 1), blocks[n - 1];
      PatchMirror(before, Closing(prior, blocks, n - 1), n - 1, Close(b.text, b.duration));
      assert Rethought(prior[n - 1], Close(b.text, b.duration)) == b;
      ClosingNext(prior, blocks, n);
      EditTwice(segs, before, CloseThoughts(segs, blocks, n));
    }
  }
}
