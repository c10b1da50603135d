/** What single workflow events show in the chat, and what a run's events leave in the trace and the panel.
  */
module WorkflowEffects {
  import opened Options
  import opened WorkflowRun

  // ---------------------------------------------------------------- the chat, event by event

  /** A part is added to the current message, or opens a message of its own, which becomes the current. */
  predicate PartShown(c: Chat, c1: Chat, part: Part) {
    && c1.current
    && if c.current && LastIsAssistant(c.messages) then
         var n := |c.messages| - 1;
         && |c1.messages| == n + 1 && c1.messages[..n] == c.messages[..n]
         && c1.messages[n] == Message(Assistant, c.messages[n].parts + [part])
       else if c.current then c1.messages == c.messages
       else c1.messages == c.messages + [Message(Assistant, [part])]
  }

  /** The call of a node that starts: under the node's title, or its type if it has none. */
  lemma StartIsShown(c: Chat, id: string, nodeType: string, title: string, input: Payload)
    ensures var c1 := HandleChat(c, NodeStart(id, nodeType, title, input));
            && c1.started == c.started + {id} && c1.nodeTypes == c.nodeTypes[id := nodeType]
            && (if nodeType == "answer" || id in c.started then c1.messages == c.messages && c1.current == c.current
                else PartShown(c, c1, CallPart(id, nodeType, if title == "" then nodeType else title, input, Running)))
  {
  }

  /** An answer token continues the text at the end of the current message, or opens a text there. */
  lemma TokenIsShown(c: Chat, id: string, token: string)
    ensures var c1 := HandleChat(c, Token(id, token));
            && c1.started == c.started && c1.nodeTypes == c.nodeTypes
            && if !(id in c.nodeTypes && c.nodeTypes[id] == "answer") then c1 == c
               else
                 var n := |c.messages| - 1;
                 var parts := LastParts(c.messages);
                 if c.current && parts != [] && parts[|parts| - 1].TextPart? then
                   && c1.current && |c1.messages| == n + 1 && c1.messages[..n] == c.messages[..n]
                   && c1.messages[n].role.Assistant? && |c1.messages[n].parts| == |parts|
                   && c1.messages[n].parts[..|parts| - 1] == parts[..|parts| - 1]
                   && c1.messages[n].parts[|parts| - 1] == TextPart(parts[|parts| - 1].text + token, parts[|parts| - 1].progress)
                 else PartShown(c, c1, TextPart(token, Some(Streaming)))
  {
  }

  /** The end of a node: texts are finished, if it completed; its running calls are settled; and all else
      stays. */
  predicate PartEnded(x: Part, y: Part, id: string, state: CallState, finishes: bool) {
    match x
    case TextPart(text, progress) => y == if finishes && progress == Some(Streaming) then TextPart(text, Some(Finished)) else x
    case CallPart(call, name, display, input, before) =>
      y == if call == id && before == Running then CallPart(call, name, display, input, state) else x
    case ResultPart(_, _, _, _, _) => y == x
  }

  predicate PartsEnded(before: seq<Part>, after: seq<Part>, id: string, state: CallState, finishes: bool) {
    |before| <= |after| && forall i :: 0 <= i < |before| ==> PartEnded(before[i], after[i], id, state, finishes)
  }

  /** The result of a node, under the names of its first call in the message, if there is one. */
  predicate ResultShown(parts: seq<Part>, result: Part, id: string, output: Payload, isError: bool) {
    && result.ResultPart? && result.id == id && result.output == output && result.isError == isError
    && (forall i :: 0 <= i < |parts| && parts[i].CallPart? && parts[i].id == id
                    && (forall j :: 0 <= j < i && parts[j].CallPart? ==> parts[j].id != id)
                    ==> result.name == parts[i].name && result.shownAs == Some(parts[i].display))
    && ((forall i :: 0 <= i < |parts| && parts[i].CallPart? ==> parts[i].id != id)
        ==> result.name == "" && result.shownAs == None)
  }

  /** What the end of a node does to the messages: only the last one changes, if it is the assistant's. */
  predicate EndShown(before: seq<Message>, after: seq<Message>, id: string, state: CallState, finishes: bool,
                     output: Option<Payload>) {
    if !LastIsAssistant(before) then after == before
    else
      var n := |before| - 1;
      && |after| == n + 1 && after[..n] == before[..n] && after[n].role.Assistant?
      && PartsEnded(before[n].parts, after[n].parts, id, state, finishes)
      && (if output.None? then |after[n].parts| == |before[n].parts|
          else
            && |after[n].parts| == |before[n].parts| + 1
            && ResultShown(before[n].parts, after[n].parts[|before[n].parts|], id, output.value, state == Failed))
  }

  lemma SettledCalls(parts: seq<Part>, settled: seq<Part>, id: string, output: Payload, isError: bool)
    requires |parts| == |settled|
    requires forall i :: 0 <= i < |parts| ==> (parts[i].CallPart? <==> settled[i].CallPart?)
    requires forall i :: 0 <= i < |parts| && parts[i].CallPart? ==>
               parts[i].id == settled[i].id && parts[i].name == settled[i].name && parts[i].display == settled[i].display
    ensures ResultShown(parts, ResultOf(settled, id, output, isError), id, output, isError)
  {
  }

  lemma CompletionIsShown(c: Chat, id: string, nodeType: string, output: Payload, duration: int)
    ensures var c1 := HandleChat(c, NodeComplete(id, nodeType, output, duration));
            && c1 == c.(messages := c1.messages)
            && (if nodeType == "answer" then AnswerFinished(c.messages, c1.messages)
                else EndShown(c.messages, c1.messages, id, Done, true, Some(output)))
  {
    var parts := LastParts(c.messages);
    if nodeType != "answer" {
      CompletedParts(parts, id);
      SettledCalls(parts, SettleAll(FinishAll(parts), id, Done), id, output, false);
      EndedLast(c.messages, SettleAll(FinishAll(parts), id, Done), id, Done, true, output);
    }
  }

  lemma CompletedParts(parts: seq<Part>, id: string)
    ensures PartsEnded(parts, SettleAll(FinishAll(parts), id, Done), id, Done, true)
  {
  }

  lemma EndedLast(messages: seq<Message>, ended: seq<Part>, id: string, state: CallState, finishes: bool, output: Payload)
    requires PartsEnded(LastParts(messages), ended, id, state, finishes) && |ended| == |LastParts(messages)|
    requires ResultShown(LastParts(messages), ResultOf(ended, id, output, state == Failed), id, output, state == Failed)
    ensures EndShown(messages, OnLast(messages, ended + [ResultOf(ended, id, output, state == Failed)]), id, state, finishes, Some(output))
  {
    if LastIsAssistant(messages) {
      var after := OnLast(messages, ended + [ResultOf(ended, id, output, state == Failed)]);
      assert after[..|messages| - 1] == messages[..|messages| - 1];
    }
  }

  /** The end of an answer node finishes the texts of the last message and settles no call. */
  predicate AnswerFinished(before: seq<Message>, after: seq<Message>) {
    if !LastIsAssistant(before) then after == before
    else
      var n := |before| - 1;
      && |after| == n + 1 && after[..n] == before[..n] && after[n].role.Assistant? && |after[n].parts| == |before[n].parts|
      && forall i :: 0 <= i < |before[n].parts| ==>
           after[n].parts[i] == if before[n].parts[i].TextPart? && before[n].parts[i].progress == Some(Streaming)
                                then TextPart(before[n].parts[i].text, Some(Finished)) else before[n].parts[i]
  }

  /** A failed node: its message is over. */
  lemma FailureIsShown(c: Chat, id: string, message: string)
    ensures var c1 := HandleChat(c, NodeFailed(id, message));
            && c1 == c.(messages := c1.messages, current := false)
            && EndShown(c.messages, c1.messages, id, Failed, false, Some(message))
  {
    var parts := LastParts(c.messages);
    SettledCalls(parts, SettleAll(parts, id, Failed), id, message, true);
  }

  // ---------------------------------------------------------------- the trace of a run

  /** The trace after the events, with the node types the chat has recorded meanwhile. */
  function TraceAll(events: seq<Event>): Trace {
    if events == [] then NO_TRACE
    else
      var front := events[..|events| - 1];
      HandleTrace(TraceAll(front), HandleAll(Begun(Chat([], false, map[], {}), ""), front).nodeTypes, events[|events| - 1])
  }

  /** The last start of the node among the first `n` events. */
  function LastStart(events: seq<Event>, id: string, n: nat): (k: int)
    requires n <= |events|
    ensures -1 <= k < n && (k >= 0 ==> events[k].NodeStart? && events[k].id == id)
    ensures forall i :: k < i < n ==> !(events[i].NodeStart? && events[i].id == id)
  {
    if n == 0 then -1 else if events[n - 1].NodeStart? && events[n - 1].id == id then n - 1 else LastStart(events, id, n - 1)
  }

  predicate Ends(e: Event, id: string) {
    (e.NodeComplete? || e.NodeFailed? || e.NodeSkip?) && e.id == id
  }

  /** The status the last of the events from `k` on that end the node gives it. */
  function StatusSince(events: seq<Event>, id: string, k: nat): NodeStatus
    requires k <= |events|
    decreases |events|
  {
    if |events| == k then NodeRunning
    else
      var last := events[|events| - 1];
      if !Ends(last, id) then StatusSince(events[..|events| - 1], id, k)
      else if last.NodeComplete? then NodeCompleted else if last.NodeFailed? then NodeError else NodeSkipped
  }

  function CompletedSince(events: seq<Event>, id: string, k: nat): Option<(Payload, int)>
    requires k <= |events|
    decreases |events|
  {
    if |events| == k then None
    else
      var last := events[|events| - 1];
      if last.NodeComplete? && last.id == id then Some((last.output, last.duration))
      else CompletedSince(events[..|events| - 1], id, k)
  }

  function ErrorSince(events: seq<Event>, id: string, k: nat): Option<string>
    requires k <= |events|
    decreases |events|
  {
    if |events| == k then None
    else
      var last := events[|events| - 1];
      if last.NodeFailed? && last.id == id then Some(last.message) else ErrorSince(events[..|events| - 1], id, k)
  }

  /** The tokens of the node from event `k` on. */
  function TokensSince(events: seq<Event>, id: string, k: nat): string
    requires k <= |events|
    decreases |events|
  {
    if |events| == k then ""
    else
      var last := events[|events| - 1];
      TokensSince(events[..|events| - 1], id, k) + (if last.Token? && last.id == id then last.token else "")
  }

  /** What a node shows of its start and of what came since; answer nodes stream into the chat instead. */
  predicate Shows(node: Node, start: Event, status: NodeStatus, completed: Option<(Payload, int)>, error: Option<string>, tokens: string)
    requires start.NodeStart?
  {
    && node.nodeType == start.nodeType && node.input == start.input
    && node.title == (if start.title == "" then start.nodeType else start.title)
    && node.status == status && node.error == error
    && (if completed.Some? then node.output == Some(completed.value.0) && node.duration == Some(completed.value.1)
        else node.output == None && node.duration == None)
    && node.streamed == (if start.nodeType == "answer" then "" else tokens)
  }

  /** A node of the trace is what its last start and the events since then say. */
  predicate NodeTraced(events: seq<Event>, id: string, node: Node) {
    var k := LastStart(events, id, |events|);
    k >= 0
    && Shows(node, events[k], StatusSince(events, id, k + 1), CompletedSince(events, id, k + 1),
             ErrorSince(events, id, k + 1), TokensSince(events, id, k + 1))
  }

  /** How many nodes completed since the workflow started last. */
  function DoneSince(events: seq<Event>): nat {
    if events == [] then 0
    else
      var last := events[|events| - 1];
      if last.WorkflowStart? then 0
      else DoneSince(events[..|events| - 1]) + (if last.NodeComplete? then 1 else 0)
  }

  function TotalOf(events: seq<Event>): nat {
    if events == [] then 0
    else
      var last := events[|events| - 1];
      if last.WorkflowStart? then last.total else TotalOf(events[..|events| - 1])
  }

  function LatestNode(events: seq<Event>): Option<string> {
    if events == [] then None
    else
      var last := events[|events| - 1];
      if last.NodeStart? then Some(last.id) else LatestNode(events[..|events| - 1])
  }

  lemma {:induction false} CountersFollow(events: seq<Event>)
    ensures var t := TraceAll(events);
            t.done == DoneSince(events) && t.total == TotalOf(events) && t.currentNode == LatestNode(events)
  {
    if events != [] { CountersFollow(events[..|events| - 1]); }
  }

  lemma StartPush(events: seq<Event>, e: Event, id: string)
    ensures LastStart(events + [e], id, |events| + 1)
            == if e.NodeStart? && e.id == id then |events| else LastStart(events, id, |events|)
  {
    SameStart(events, e, id, |events|);
  }

  lemma {:induction false} SameStart(events: seq<Event>, e: Event, id: string, n: nat)
    requires n <= |events|
    ensures LastStart(events + [e], id, n) == LastStart(events, id, n)
  {
    if n > 0 { SameStart(events, e, id, n - 1); }
  }

  /** One more event about a node of the trace, or about another one. */
  lemma NodeStep(events: seq<Event>, e: Event, id: string, t: Trace, types: map<string, string>)
    requires id in t.nodes && NodeTraced(events, id, t.nodes[id])
    requires id in types && types[id] == t.nodes[id].nodeType
    ensures id in HandleTrace(t, types, e).nodes && NodeTraced(events + [e], id, HandleTrace(t, types, e).nodes[id])
  {
    if e.NodeStart? && e.id == id {
      NodeStarts(events, e, id, t, types);
    } else {
      NodeGoesOn(events, e, id, t, types);
    }
  }

  /** A node that starts, for the first time or again. */
  lemma NodeStarts(events: seq<Event>, e: Event, id: string, t: Trace, types: map<string, string>)
    requires e.NodeStart? && e.id == id
    ensures id in HandleTrace(t, types, e).nodes && NodeTraced(events + [e], id, HandleTrace(t, types, e).nodes[id])
  {
    StartPush(events, e, id);
  }

  lemma NodeGoesOn(events: seq<Event>, e: Event, id: string, t: Trace, types: map<string, string>)
    requires id in t.nodes && NodeTraced(events, id, t.nodes[id]) && !(e.NodeStart? && e.id == id)
    requires id in types && types[id] == t.nodes[id].nodeType
    ensures id in HandleTrace(t, types, e).nodes && NodeTraced(events + [e], id, HandleTrace(t, types, e).nodes[id])
  {
    var k := LastStart(events, id, |events|);
    StartPush(events, e, id);
    SincePush(events, e, id, k + 1);
    ShowsNext(t, types, e, id, events[k], StatusSince(events, id, k + 1), CompletedSince(events, id, k + 1),
              ErrorSince(events, id, k + 1), TokensSince(events, id, k + 1));
    assert (events + [e])[k] == events[k];
  }

  lemma ShowsNext(t: Trace, types: map<string, string>, e: Event, id: string, start: Event, status: NodeStatus,
                  completed: Option<(Payload, int)>, error: Option<string>, tokens: string)
    requires start.NodeStart? && id in t.nodes && Shows(t.nodes[id], start, status, completed, error, tokens)
    requires id in types && types[id] == t.nodes[id].nodeType && !(e.NodeStart? && e.id == id)
    ensures id in HandleTrace(t, types, e).nodes
    ensures Shows(HandleTrace(t, types, e).nodes[id], start,
                  if !Ends(e, id) then status
                  else if e.NodeComplete? then NodeCompleted else if e.NodeFailed? then NodeError else NodeSkipped,
                  if e.NodeComplete? && e.id == id then Some((e.output, e.duration)) else completed,
                  if e.NodeFailed? && e.id == id then Some(e.message) else error,
                  tokens + (if e.Token? && e.id == id then e.token else ""))
  {
  }

  lemma SincePush(events: seq<Event>, e: Event, id: string, k: nat)
    requires k <= |events|
    ensures StatusSince(events + [e], id, k)
            == if !Ends(e, id) then StatusSince(events, id, k)
               else if e.NodeComplete? then NodeCompleted else if e.NodeFailed? then NodeError else NodeSkipped
    ensures CompletedSince(events + [e], id, k)
            == if e.NodeComplete? && e.id == id then Some((e.output, e.duration)) else CompletedSince(events, id, k)
    ensures ErrorSince(events + [e], id, k) == if e.NodeFailed? && e.id == id then Some(e.message) else ErrorSince(events, id, k)
    ensures TokensSince(events + [e], id, k) == TokensSince(events, id, k) + (if e.Token? && e.id == id then e.token else "")
  {
    assert (events + [e])[..|events|] == events;
  }

  lemma NewNode(events: seq<Event>, e: Event, id: string, t: Trace, types: map<string, string>)
    requires id !in t.nodes && LastStart(events, id, |events|) < 0
    ensures id in HandleTrace(t, types, e).nodes <==> e.NodeStart? && e.id == id
    ensures id in HandleTrace(t, types, e).nodes ==> NodeTraced(events + [e], id, HandleTrace(t, types, e).nodes[id])
  {
    StartPush(events, e, id);
  }

  /** The types recorded for the chat are those of the last starts. */
  lemma TypeOfStart(events: seq<Event>, id: string)
    ensures var k, r := LastStart(events, id, |events|), HandleAll(Begun(Chat([], false, map[], {}), ""), events);
            (id in r.nodeTypes <==> k >= 0) && (k >= 0 ==> r.nodeTypes[id] == events[k].nodeType)
  {
    RefsFollow(Chat([], false, map[], {}), "", events, id);
    LatestIsLast(events, id, |events|);
    assert events[..|events|] == events;
  }

  lemma {:induction false} LatestIsLast(events: seq<Event>, id: string, n: nat)
    requires n <= |events|
    ensures var k := LastStart(events, id, n);
            LatestType(events[..n], id) == if k >= 0 then Some(events[k].nodeType) else None
  {
    if n > 0 {
      LatestIsLast(events, id, n - 1);
      assert events[..n][..n - 1] == events[..n - 1];
    }
  }

  /** Over every run: the trace holds exactly the nodes that started, each as its events say. */
  lemma {:induction false} TraceFollows(events: seq<Event>, id: string)
    ensures id in TraceAll(events).nodes <==> LastStart(events, id, |events|) >= 0
    ensures id in TraceAll(events).nodes ==> NodeTraced(events, id, TraceAll(events).nodes[id])
  {
    if events != [] {
      var front, last := events[..|events| - 1], events[|events| - 1];
      assert events == front + [last];
      TraceFollows(front, id);
      TypeOfStart(front, id);
      StartPush(front, last, id);
      var types := HandleAll(Begun(Chat([], false, map[], {}), ""), front).nodeTypes;
      if id in TraceAll(front).nodes {
        NodeStep(front, last, id, TraceAll(front), types);
      } else {
        NewNode(front, last, id, TraceAll(front), types);
      }
    }
  }

  // ---------------------------------------------------------------- the panel of a run

  function PanelAll(p: Panel, events: seq<Event>): Panel {
    if events == [] then p else HandlePanel(PanelAll(p, events[..|events| - 1]), events[|events| - 1])
  }

  predicate Stops(e: Event) {
    e.WorkflowWaiting? || e.WorkflowComplete? || e.WorkflowError?
  }

  /** The last event that says how the run is doing. */
  function LastWord(events: seq<Event>): Option<Event> {
    if events == [] then None
    else
      var last := events[|events| - 1];
      if last.WorkflowStart? || Stops(last) then Some(last) else LastWord(events[..|events| - 1])
  }

  /** The last outputs an event brought. */
  function LastOutputs(events: seq<Event>): Option<Payload> {
    if events == [] then None
    else
      match events[|events| - 1]
      case Output(result) => Some(result)
      case WorkflowComplete(Some(final)) => Some(final)
      case _ => LastOutputs(events[..|events| - 1])
  }

  function LastError(events: seq<Event>): Option<string> {
    if events == [] then None
    else if events[|events| - 1].WorkflowError? then Some(events[|events| - 1].message)
    else LastError(events[..|events| - 1])
  }

  /** The panel of a started run after the events: the last word on its state, streaming until it waits or
      is over, the last outputs, and the last error. */
  predicate PanelShows(p: Panel, events: seq<Event>, runId: Option<string>) {
    && p.runId == runId && p.outputs == LastOutputs(events) && p.error == LastError(events)
    && (p.streaming <==> forall k :: 0 <= k < |events| ==> !Stops(events[k]))
    && match LastWord(events)
       case None => p.status == Pending
       case Some(WorkflowStart(_)) => p.status == Active
       case Some(WorkflowWaiting) => p.status == Waiting
       case Some(WorkflowComplete(_)) => p.status == Success
       case Some(_) => p.status == Failure
  }

  lemma {:induction false} PanelFollows(runId: Option<string>, events: seq<Event>)
    ensures PanelShows(PanelAll(Panel(Pending, true, None, None, runId), events), events, runId)
  {
    if events != [] {
      var front, last := events[..|events| - 1], events[|events| - 1];
      assert events == front + [last];
      PanelFollows(runId, front);
      assert Stops(last) ==> !(forall k :: 0 <= k < |events| ==> !Stops(events[k])) by { assert events[|front|] == last; }
    }
  }
}
