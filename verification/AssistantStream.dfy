/** The session state of one assistant message, updated in place by stream events
    (frontend/hooks/use-chat.ts). Every method is proved to move the contents exactly
    as the functions of `Timeline` say.
  */
module AssistantStreams {
  import opened Options
  import opened ChatParts
  import opened Timeline
  import opened TimelineFacts

  class AssistantStream {
    var segments: seq<Segment>
    var blocks: seq<Block>
    var current: int
    var sources: seq<Source>
    var tasks: TaskTable

    ghost function Contents(): State
      reads this
    {
      State(segments, blocks, current, sources, tasks)
    }

    constructor ()
      ensures Contents() == EMPTY_STATE
    {
      segments, blocks, current, sources, tasks := [], [], -1, [], NO_TASKS;
    }

    // -------------------------------------------------------------- timeline tasks

    method AppendTask(t: TaskType, info: Option<Info>)
      modifies this`segments
      ensures segments == old(segments) + [TaskSeg(Task(t, TaskRunning, info))]
    {
      segments := segments + [TaskSeg(Task(t, TaskRunning, info))];
    }

    /** Searches backwards for the last task of the type. */
    method UpdateLatestTask(t: TaskType, state: TaskState, info: Option<Info>) returns (found: bool)
      modifies this`segments
      ensures segments == TouchLatest(old(segments), t, state, info)
      ensures found <==> HasTask(old(segments), t)
    {
      TouchLatestByIndex(segments, t, state, info);
      var i := |segments| - 1;
      while i >= 0
        invariant -1 <= i < |segments| && segments == old(segments)
        invariant forall j :: i < j < |segments| ==> !IsTask(segments[j], t)
      {
        if IsTask(segments[i], t) {
          segments := segments[i := TaskSeg(Retask(segments[i].task, state, info))];
          return true;
        }
        i := i - 1;
      }
      return false;
    }

    method EnsureLatestTask(t: TaskType, state: TaskState, info: Option<Info>)
      modifies this`segments
      ensures segments == EnsureTask(old(segments), t, state, info)
    {
      FoundIffHeld(segments, "", t);
      TouchLatestByIndex(segments, t, state, info);
      var found := UpdateLatestTask(t, state, info);
      if !found {
        segments := segments + [TaskSeg(Task(t, state, info))];
      }
    }

    // -------------------------------------------------------------- tool segments

    method FindToolSegment(id: string) returns (k: nat)
      ensures k == FindTool(segments, id)
    {
      k := 0;
      while k < |segments|
        invariant k <= |segments|
        invariant forall i :: 0 <= i < k ==> !Holds(segments[i], id)
      {
        if Holds(segments[k], id) {
          return;
        }
        k := k + 1;
      }
    }

    method AddToolCall(call: ToolCall)
      modifies this`segments
      ensures segments == Upsert(old(segments), PutCall(call))
    {
      UpsertByIndex(segments, PutCall(call));
      var k := FindToolSegment(call.id);
      if k < |segments| {
        var seg := segments[k];
        var merged := if seg.call.Some? then MergeCall(seg.call.value, call) else SetCallState(call, seg.result);
        segments := segments[k := seg.(call := Some(merged))];
      } else {
        segments := segments + [ToolSeg(Some(call), None)];
      }
    }

    method AddToolResult(result: ToolResult)
      modifies this`segments
      ensures segments == Upsert(old(segments), PutResult(result))
    {
      UpsertByIndex(segments, PutResult(result));
      var k := FindToolSegment(result.id);
      if k < |segments| {
        var seg := segments[k].(result := Some(result));
        if seg.call.Some? {
          seg := seg.(call := Some(SetCallState(seg.call.value, Some(result))));
        }
        segments := segments[k := seg];
      } else {
        segments := segments + [ToolSeg(None, Some(result))];
      }
    }

    method AddCitations(citations: seq<Citation>)
      modifies this`sources
      ensures sources == old(sources) + Cited(KnownIds(old(sources)), citations)
    {
      var known := KnownIds(sources);
      var i := 0;
      while i < |citations|
        invariant 0 <= i <= |citations|
        invariant sources + Cited(known, citations[i..]) == old(sources) + Cited(KnownIds(old(sources)), citations)
      {
        var c := citations[i];
        assert citations[i..][1..] == citations[i + 1..];
        if c.id !in known {
          known := known + {c.id};
          match c {
            case UrlCitation(id, url, body) =>
              if url != "" {
                sources := sources + [UrlSource(Some(id), url, body)];
              }
            case DocumentCitation(id, body) =>
              sources := sources + [DocumentSource(Some(id), body)];
          }
        }
        i := i + 1;
      }
    }

    method ToolCalls() returns (calls: seq<ToolCall>)
      ensures calls == Collect(CallOf, segments)
    {
      calls := [];
      var i := 0;
      while i < |segments|
        invariant 0 <= i <= |segments|
        invariant calls + Collect(CallOf, segments[i..]) == Collect(CallOf, segments)
      {
        assert segments[i..][1..] == segments[i + 1..];
        if segments[i].ToolSeg? && segments[i].call.Some? {
          calls := calls + [segments[i].call.value];
        }
        i := i + 1;
      }
    }

    // -------------------------------------------------------------- reasoning

    method OpenReasoning(now: int)
      modifies this
      ensures Contents() == OpenThought(old(Contents()), now)
    {
      blocks := blocks + [Block("", now, None, true)];
      current := |blocks| - 1;
      segments := segments + [ReasoningSeg(current, "", true, now, None)];
    }

    method PatchReasoning(n: int, p: ThoughtPatch)
      modifies this`segments
      ensures segments == PatchThought(old(segments), n, p)
    {
      PatchThoughtByIndex(segments, n, p);
      var k := 0;
      while k < |segments|
        invariant 0 <= k <= |segments| && segments == old(segments)
        invariant forall i :: 0 <= i < k ==> !IsThought(segments[i], n)
      {
        if IsThought(segments[k], n) {
          segments := segments[k := Rethink(segments[k], p)];
          return;
        }
        k := k + 1;
      }
    }

    method GrowReasoning(delta: string)
      requires ThoughtOpen(Contents())
      modifies this`blocks, this`segments
      ensures Contents() == GrowThought(old(Contents()), delta)
    {
      var block := blocks[current];
      block := block.(text := block.text + delta);
      blocks := blocks[current := block];
      PatchReasoning(current, Grow(block.text));
    }

    method EndReasoning(now: int)
      requires ThoughtOpen(Contents())
      modifies this`blocks, this`segments
      ensures Contents() == EndThought(old(Contents()), now)
    {
      var block := blocks[current];
      block := block.(duration := Some(now - block.startTime));
      block := block.(streaming := false);
      blocks := blocks[current := block];
      PatchReasoning(current, Close(block.text, block.duration));
    }

    // -------------------------------------------------------------- the event reducer

    method AddContent(delta: string)
      modifies this`segments, this`tasks
      ensures Contents() == Apply(old(Contents()), ContentDelta(delta), 0)
    {
      if tasks.generating == TaskPending {
        if tasks.rag == TaskRunning {
          tasks := tasks.(rag := TaskCompleted);
          var _ := UpdateLatestTask(Rag, TaskCompleted, None);
        }
        tasks := tasks.(generating := TaskRunning);
        AppendTask(Generating, None);
      }
      ghost var before := segments;
      assert BeginAnswer(old(Contents())) == Contents();
      if |segments| == 0 || !segments[|segments| - 1].TextSeg? {
        segments := segments + [TextSeg("")];
      }
      var last := |segments| - 1;
      segments := segments[last := TextSeg(segments[last].text + delta)];
      assert "" + delta == delta;
      assert segments == AppendText(before, delta);
    }

    /** `applyAssistantStreamEvent`; the result tells whether a new rendering is due. */
    method ApplyEvent(e: StreamEvent, now: int) returns (changed: bool)
      modifies this
      ensures Contents() == Apply(old(Contents()), e, now)
      ensures !changed ==> Contents() == old(Contents())
      ensures changed <==> !(e.OtherEvent? || (e.ReasoningEnd? && !ThoughtOpen(old(Contents())))
                             || (e.MediaEvent? && !e.displayed))
    {
      changed := true;
      match e {
        case RagStart =>
          tasks := tasks.(rag := TaskRunning);
          AppendTask(Rag, None);
        case ReasoningStart =>
          OpenReasoning(now);
        case ReasoningDelta(delta) =>
          if !(0 <= current < |blocks|) {
            OpenReasoning(now);
          }
          GrowReasoning(delta);
        case ReasoningEnd =>
          if 0 <= current < |blocks| {
            EndReasoning(now);
          } else {
            changed := false;
          }
        case ContentDelta(delta) =>
          AddContent(delta);
        case RagContext(found, info) =>
          sources := found;
          tasks := tasks.(rag := TaskCompleted);
          tasks := tasks.(ragSourceCount := Some(|sources|));
          EnsureLatestTask(Rag, TaskCompleted, Some(Structured(info)));
        case CompressionStart(info) =>
          tasks := tasks.(compression := TaskRunning);
          AppendTask(Compression, info);
        case CompressionEnd(info) =>
          tasks := tasks.(compression := TaskCompleted);
          EnsureLatestTask(Compression, TaskCompleted, info);
        case CallEvent(_, _, _, _) =>
          AddToolCall(StartedCall(e));
          tasks := tasks.(toolCalling := TaskRunning);
          var calls := ToolCalls();
          tasks := tasks.(toolCallCount := Some(|calls|));
        case ResultEvent(result, citations) =>
          AddCitations(citations);
          AddToolResult(result);
          var calls := ToolCalls();
          if (forall c :: c in calls ==> c.Terminal()) && tasks.toolCalling == TaskRunning {
            tasks := tasks.(toolCalling := TaskCompleted);
          }
        case MediaEvent(body, displayed) =>
          if displayed {
            segments := segments + [MediaSeg(body)];
          } else {
            changed := false;
          }
        case OutputTruncated =>
          segments := segments + [TruncatedSeg];
        case IterationCapReached(content) =>
          segments := segments + [IterationCapSeg];
          if content != "" {
            segments := segments + [TextSeg(content)];
          }
        case OtherEvent =>
          changed := false;
      }
    }

    // -------------------------------------------------------------- other steps

    method CloseBlocks(now: int)
      modifies this`blocks, this`segments
      ensures blocks == FinalBlocks(old(blocks), now)
      ensures segments == CloseThoughts(old(segments), blocks, |blocks|)
    {
      ghost var final := FinalBlocks(blocks, now);
      var k := 0;
      while k < |blocks|
        invariant 0 <= k <= |blocks| == |final|
        invariant forall i :: 0 <= i < k ==> blocks[i] == final[i]
        invariant forall i :: k <= i < |blocks| ==> blocks[i] == old(blocks)[i]
        invariant segments == CloseThoughts(old(segments), final, k)
      {
        var block := blocks[k];
        if block.streaming {
          block := block.(duration := Some(now - block.startTime));
          block := block.(streaming := false);
          blocks := blocks[k := block];
        }
        PatchReasoning(k, Close(block.text, block.duration));
        k := k + 1;
      }
    }

    method SettleSegments()
      modifies this`segments
      ensures segments == SettleAll(old(segments))
    {
      var i := 0;
      while i < |segments|
        invariant 0 <= i <= |segments| == |old(segments)|
        invariant forall k :: 0 <= k < |segments| ==>
                    segments[k] == if k < i then Settle(old(segments)[k]) else old(segments)[k]
      {
        var seg := segments[i];
        if seg.ToolSeg? && seg.call.Some? && seg.call.value.state == Some(Running) {
          segments := segments[i := seg.(call := Some(seg.call.value.(state := Some(Done))))];
        }
        if seg.TaskSeg? && seg.task.state == TaskRunning {
          segments := segments[i := TaskSeg(seg.task.(state := TaskCompleted))];
        }
        i := i + 1;
      }
    }

    /** `finalizeStreamingState`. */
    method FinalizeStreaming(now: int)
      modifies this
      ensures Contents() == Finalize(old(Contents()), now)
    {
      CloseBlocks(now);
      SettleSegments();
      if tasks.rag == TaskRunning { tasks := tasks.(rag := TaskCompleted); }
      if tasks.generating == TaskRunning { tasks := tasks.(generating := TaskCompleted); }
      if tasks.toolCalling == TaskRunning { tasks := tasks.(toolCalling := TaskCompleted); }
      if tasks.compression == TaskRunning { tasks := tasks.(compression := TaskCompleted); }
      current := -1;
    }

    /** The state part of `markAssistantError`. */
    method MarkError(now: int)
      modifies this
      ensures Contents() == Do(old(Contents()), Failure, now)
    {
      if tasks.compression == TaskRunning {
        tasks := tasks.(compression := TaskError);
        var _ := UpdateLatestTask(Compression, TaskError, None);
      }
      if (exists seg :: seg in segments && Progress(seg)) || |sources| > 0
         || tasks.rag != TaskPending || tasks.generating != TaskPending
         || tasks.toolCalling != TaskPending || tasks.compression != TaskPending
      {
        var open := current;
        FinalizeStreaming(now);
        current := open;
      }
    }

    method AddInstruction(content: string)
      modifies this`segments
      ensures Contents() == Do(old(Contents()), Instruct(content), 0)
    {
      if content != "" {
        segments := segments + [InstructionSeg(content)];
      }
    }

    method MarkAskUserPending(id: string) returns (marked: bool)
      modifies this`segments
      ensures Contents() == Do(old(Contents()), AskUser(id), 0)
      ensures marked <==> exists k :: k == FindTool(old(segments), id) && k < |old(segments)| && Askable(old(segments)[k])
    {
      MarkPendingByIndex(segments, id);
      var k := FindToolSegment(id);
      if k == |segments| || !Askable(segments[k]) {
        return false;
      }
      segments := segments[k := Awaiting(segments[k])];
      return true;
    }

    method ShowQuestion(id: string, input: Payload) returns (marked: bool)
      modifies this`segments, this`tasks
      ensures Contents() == Hydrate(old(Contents()), id, input)
      ensures marked <==> forall k :: k == FindTool(old(segments), id) && k < |old(segments)| ==> Askable(old(segments)[k])
    {
      FoundIffHeld(segments, id, Rag);
      var k := FindToolSegment(id);
      if k == |segments| {
        var question := ToolSeg(Some(PlainCall(id, Some("ask_user"), Some("ask_user"), Some(input), Some(Pending))), None);
        FoundLast(segments, question, id);
        segments := segments + [question];
      }
      tasks := tasks.(toolCalling := TaskRunning);
      marked := MarkAskUserPending(id);
    }

    /** `hydratePendingAskUserSegment`: a run that waits for another tool, or for none, changes nothing. */
    method HydratePendingAskUser(pendingId: Option<string>, pendingName: Option<string>, pendingInput: Option<Payload>)
      returns (marked: bool)
      modifies this
      ensures var asks := pendingId.Some? && pendingId.value != "" && (pendingName.Some? ==> pendingName.value == "ask_user");
              && (!asks ==> !marked && Contents() == old(Contents()))
              && (asks ==>
                    && Contents() == Do(old(Contents()), Rehydrate(pendingId.value, InputOr(pendingInput)), 0)
                    && (marked <==> forall k :: k == FindTool(old(segments), pendingId.value) && k < |old(segments)|
                                                ==> Askable(old(segments)[k])))
    {
      if pendingId.None? || pendingId.value == "" || (pendingName.Some? && pendingName.value != "ask_user") {
        return false;
      }
      marked := ShowQuestion(pendingId.value, InputOr(pendingInput));
    }

    // -------------------------------------------------------------- rendering and rebuilding

    static method RenderSegment(seg: Segment, streaming: bool) returns (parts: seq<Part>)
      ensures parts == PartsOf(seg, streaming)
    {
      parts := [];
      match seg {
        case TextSeg(text) =>
          if text != "" { parts := [TextPart(text, streaming)]; }
        case ReasoningSeg(_, text, open, _, duration) =>
          parts := [ReasoningPart(text, open, duration)];
        case TaskSeg(task) =>
          parts := [TaskPart(ShownTask(task, streaming))];
        case ToolSeg(call, result) =>
          if call.Some? { parts := [CallPart(call.value)]; }
          if result.Some? { parts := parts + [ResultPart(result.value)]; }
        case MediaSeg(body) =>
          parts := [MediaPart(body)];
        case TruncatedSeg =>
          parts := [TruncatedPart];
        case IterationCapSeg =>
          parts := [IterationCapPart];
        case InstructionSeg(content) =>
          if content != "" { parts := [InstructionPart(content)]; }
      }
    }

    /** `buildMessageParts`. */
    method BuildMessageParts(streaming: bool) returns (parts: seq<Part>)
      ensures parts == Build(Contents(), streaming)
    {
      parts := [];
      var i := 0;
      while i < |segments|
        invariant 0 <= i <= |segments|
        invariant parts == Render(segments[..i], streaming)
      {
        var shown := RenderSegment(segments[i], streaming);
        RenderPush(segments[..i], segments[i], streaming);
        assert segments[..i + 1] == segments[..i] + [segments[i]];
        parts := parts + shown;
        i := i + 1;
      }
      assert segments[..i] == segments;
      parts := CloseParts(parts, streaming);
    }

    method CloseParts(rendered: seq<Part>, streaming: bool) returns (parts: seq<Part>)
      ensures parts == rendered + (if streaming then [] else Footer(sources))
    {
      parts := rendered;
      if |sources| > 0 && !streaming {
        parts := parts + Footer(sources);
      }
    }

    /** One part of `createAssistantStreamStateFromParts`. */
    method LoadPart(part: Part, now: int)
      modifies this
      ensures Contents() == AddPart(old(Contents()), part, now)
    {
      match part {
        case TextPart(text, _) =>
          segments := segments + [TextSeg(text)];
        case ReasoningPart(text, open, duration) =>
          var index := |blocks|;
          blocks := blocks + [Block(text, now, duration, open)];
          current := if open then index else -1;
          segments := segments + [ReasoningSeg(index, text, open, now, duration)];
        case InstructionPart(content) =>
          segments := segments + [InstructionSeg(content)];
        case TaskPart(task) =>
          segments := segments + [TaskSeg(task)];
          if task.taskType == Rag {
            tasks := tasks.(rag := task.state);
            tasks := tasks.(ragSourceCount :=
              if task.info.Some? && task.info.value.Number? then Some(task.info.value.n) else None);
          } else if task.taskType == Generating {
            tasks := tasks.(generating := task.state);
          } else if task.taskType == Compression {
            tasks := tasks.(compression := task.state);
          }
        case CallPart(call) =>
          AddToolCall(call);
          tasks := tasks.(toolCalling := if call.state == Some(Running) then TaskRunning else TaskCompleted);
        case ResultPart(result) =>
          AddToolResult(result);
        case SourcePart(source) =>
          sources := sources + [source];
        case MediaPart(body) =>
          segments := segments + [MediaSeg(body)];
        case TruncatedPart =>
          segments := segments + [TruncatedSeg];
        case IterationCapPart =>
          segments := segments + [IterationCapSeg];
        case OtherPart(_) =>
      }
    }

    /** `createAssistantStreamStateFromParts`. */
    constructor FromMessage(parts: seq<Part>, now: int)
      ensures Contents() == FromParts(parts, now)
    {
      segments, blocks, current, sources, tasks := [], [], -1, [], NO_TASKS;
      new;
      var i := 0;
      while i < |parts|
        invariant 0 <= i <= |parts|
        invariant Contents() == Load(parts[..i], now)
      {
        LoadPart(parts[i], now);
        assert parts[..i + 1][..i] == parts[..i];
        i := i + 1;
      }
      assert parts[..i] == parts;
      var calls := ToolCalls();
      if |calls| > 0 && (forall c :: c in calls ==> c.Terminal()) {
        tasks := tasks.(toolCalling := TaskCompleted);
      }
    }
  }
}
