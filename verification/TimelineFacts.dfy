/** The timeline functions seen by index: which segment an update hits, and what
    collecting over the segments makes of it.
  */
module TimelineFacts {
  import opened Options
  import opened ChatParts
  import opened Timeline

  /** The first segment holding the id, or the length. */
  function FindTool(segs: seq<Segment>, id: string): (k: nat)
    ensures k <= |segs|
    ensures k < |segs| ==> Holds(segs[k], id)
    ensures forall i :: 0 <= i < k ==> !Holds(segs[i], id)
  {
    if segs == [] then 0
    else if Holds(segs[0], id) then 0
    else 1 + FindTool(segs[1..], id)
  }

  /** The last task segment of that type, or -1. */
  function LastTask(segs: seq<Segment>, t: TaskType): (k: int)
    ensures -1 <= k < |segs|
    ensures k >= 0 ==> IsTask(segs[k], t)
    ensures forall i :: k < i < |segs| ==> !IsTask(segs[i], t)
  {
    if segs == [] then -1
    else if IsTask(segs[|segs| - 1], t) then |segs| - 1
    else LastTask(segs[..|segs| - 1], t)
  }

  /** The first reasoning segment of index `n`, or the length. */
  function FindThought(segs: seq<Segment>, n: int): (k: nat)
    ensures k <= |segs|
    ensures k < |segs| ==> IsThought(segs[k], n)
    ensures forall i :: 0 <= i < k ==> !IsThought(segs[i], n)
  {
    if segs == [] then 0
    else if IsThought(segs[0], n) then 0
    else 1 + FindThought(segs[1..], n)
  }

  lemma FoundIffHeld(segs: seq<Segment>, id: string, t: TaskType)
    ensures FindTool(segs, id) < |segs| <==> HasTool(segs, id)
    ensures LastTask(segs, t) >= 0 <==> HasTask(segs, t)
  {
  }

  lemma {:induction false} FoundLast(segs: seq<Segment>, x: Segment, id: string)
    requires FindTool(segs, id) == |segs| && Holds(x, id)
    ensures FindTool(segs + [x], id) == |segs|
  {
    if segs != [] {
      assert (segs + [x])[1..] == segs[1..] + [x];
      FoundLast(segs[1..], x, id);
    }
  }

  lemma {:induction false} UpsertByIndex(segs: seq<Segment>, p: ToolPatch)
    ensures var k := FindTool(segs, p.Id());
            Upsert(segs, p) == if k < |segs| then segs[k := p.Patched(segs[k])] else segs + [p.Opened()]
  {
    if segs == [] || Holds(segs[0], p.Id()) {
      return;
    }
    var rest, k := segs[1..], FindTool(segs, p.Id());
    UpsertByIndex(rest, p);
    assert segs == [segs[0]] + rest;
    if k < |segs| {
      var x := p.Patched(segs[k]);
      assert segs[k := x] == [segs[0]] + rest[k - 1 := x];
    } else {
      assert segs + [p.Opened()] == [segs[0]] + (rest + [p.Opened()]);
    }
  }

  lemma {:induction false} MarkPendingByIndex(segs: seq<Segment>, id: string)
    ensures var k := FindTool(segs, id);
            MarkPending(segs, id) == if k < |segs| && Askable(segs[k]) then segs[k := Awaiting(segs[k])] else segs
  {
    if segs != [] && !Holds(segs[0], id) {
      MarkPendingByIndex(segs[1..], id);
    }
  }

  lemma {:induction false} TouchLatestByIndex(segs: seq<Segment>, t: TaskType, state: TaskState, info: Option<Info>)
    ensures var k := LastTask(segs, t);
            TouchLatest(segs, t, state, info)
            == if k >= 0 then segs[k := TaskSeg(Retask(segs[k].task, state, info))] else segs
  {
    if segs == [] {
      return;
    }
    var n, k := |segs| - 1, LastTask(segs, t);
    var front, last := segs[..n], segs[n];
    assert segs == front + [last];
    if !IsTask(last, t) {
      TouchLatestByIndex(front, t, state, info);
      if k >= 0 {
        UpdateFront(front, last, k, TaskSeg(Retask(front[k].task, state, info)));
      }
    }
  }

  lemma UpdateFront(front: seq<Segment>, last: Segment, k: nat, x: Segment)
    requires k < |front|
    ensures (front + [last])[k := x] == front[k := x] + [last]
  {
  }

  lemma {:induction false} PatchThoughtByIndex(segs: seq<Segment>, n: int, p: ThoughtPatch)
    ensures var k := FindThought(segs, n);
            PatchThought(segs, n, p) == if k < |segs| then segs[k := Rethink(segs[k], p)] else segs
  {
    if segs != [] && !IsThought(segs[0], n) {
      PatchThoughtByIndex(segs[1..], n, p);
    }
  }

  // ---------------------------------------------------------------- collecting

  lemma {:induction false} CollectAppend<T>(f: Segment -> seq<T>, a: seq<Segment>, b: seq<Segment>)
    ensures Collect(f, a + b) == Collect(f, a) + Collect(f, b)
  {
    if a == [] {
      assert a + b == b;
    } else {
      assert (a + b)[1..] == a[1..] + b;
      CollectAppend(f, a[1..], b);
    }
  }

  lemma CollectPush<T>(f: Segment -> seq<T>, a: seq<Segment>, x: Segment)
    ensures Collect(f, a + [x]) == Collect(f, a) + f(x)
  {
    CollectAppend(f, a, [x]);
    assert Collect(f, [x]) == f(x) + Collect(f, []);
  }

  lemma CollectUpdate<T>(f: Segment -> seq<T>, segs: seq<Segment>, k: nat, x: Segment)
    requires k < |segs|
    ensures Collect(f, segs[k := x]) == Collect(f, segs[..k]) + f(x) + Collect(f, segs[k + 1..])
  {
    assert segs[k := x] == segs[..k] + [x] + segs[k + 1..];
    CollectAppend(f, segs[..k] + [x], segs[k + 1..]);
    CollectPush(f, segs[..k], x);
  }

  lemma CollectSame<T>(f: Segment -> seq<T>, segs: seq<Segment>, k: nat, x: Segment)
    requires k < |segs| && f(x) == f(segs[k])
    ensures Collect(f, segs[k := x]) == Collect(f, segs)
  {
    CollectUpdate(f, segs, k, x);
    CollectUpdate(f, segs, k, segs[k]);
    assert segs[k := segs[k]] == segs;
  }

  lemma {:induction false} CollectPointwise<T>(f: Segment -> seq<T>, a: seq<Segment>, b: seq<Segment>)
    requires |a| == |b| && forall i :: 0 <= i < |a| ==> f(a[i]) == f(b[i])
    ensures Collect(f, a) == Collect(f, b)
  {
    if a != [] {
      CollectPointwise(f, a[1..], b[1..]);
    }
  }

  lemma {:induction false} RenderAppend(a: seq<Segment>, b: seq<Segment>, streaming: bool)
    ensures Render(a + b, streaming) == Render(a, streaming) + Render(b, streaming)
  {
    if a == [] {
      assert a + b == b;
    } else {
      assert (a + b)[1..] == a[1..] + b;
      RenderAppend(a[1..], b, streaming);
    }
  }

  lemma RenderPush(a: seq<Segment>, x: Segment, streaming: bool)
    ensures Render(a + [x], streaming) == Render(a, streaming) + PartsOf(x, streaming)
  {
    RenderAppend(a, [x], streaming);
    assert Render([x], streaming) == PartsOf(x, streaming) + Render([], streaming);
  }
}
