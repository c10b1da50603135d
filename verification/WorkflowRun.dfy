/** The workflow run hook: folds the events of a run into chat messages and an execution trace.

    Messages carry no ids and nodes no times here; everything else the events change is kept.
  */
module WorkflowRun {
  import opened Options
  import opened Strings

  type Payload = string

  datatype PartState = Streaming | Finished

  datatype CallState = Running | Done | Failed

  datatype Part =
    | TextPart(text: string, progress: Option<PartState>)
    | CallPart(id: string, name: string, display: string, input: Payload, state: CallState)
    | ResultPart(id: string, name: string, shownAs: Option<string>, output: Payload, isError: bool)

  datatype Role = User | Assistant

  datatype Message = Message(role: Role, parts: seq<Part>)

  /** `current` says whether `currentMessageRef` is set; only whether it is set is ever looked at. */
  datatype Chat = Chat(messages: seq<Message>, current: bool, nodeTypes: map<string, string>, started: set<string>)

  datatype NodeStatus = NodeRunning | NodeCompleted | NodeError | NodeSkipped

  datatype Node = Node(
    nodeType: string, title: string, status: NodeStatus, input: Payload, output: Option<Payload>,
    duration: Option<int>, error: Option<string>, streamed: string)

  datatype Trace = Trace(nodes: map<string, Node>, currentNode: Option<string>, done: nat, total: nat)

  datatype RunState = Idle | Pending | Active | Waiting | Success | Failure | Cancelled

  datatype Panel = Panel(status: RunState, streaming: bool, outputs: Option<Payload>, error: Option<string>, runId: Option<string>)

  /** Error texts are the resolved ones, output values are what `setOutputs` gets, if it is called. */
  datatype Event =
    | WorkflowStart(total: nat)
    | NodeStart(id: string, nodeType: string, title: string, input: Payload)
    | Token(id: string, token: string)
    | NodeComplete(id: string, nodeType: string, output: Payload, duration: int)
    | NodeFailed(id: string, message: string)
    | NodeSkip(id: string)
    | Output(result: Payload)
    | WorkflowWaiting
    | WorkflowComplete(final: Option<Payload>)
    | WorkflowError(message: string)
    | OtherEvent

  const NO_TRACE := Trace(map[], None, 0, 0)

  // ---------------------------------------------------------------- messages

  predicate LastIsAssistant(messages: seq<Message>) {
    messages != [] && messages[|messages| - 1].role.Assistant?
  }

  /** Updates the parts of the last message, if it is the assistant's. */
  function OnLast(messages: seq<Message>, parts: seq<Part>): seq<Message> {
    if LastIsAssistant(messages) then messages[..|messages| - 1] + [Message(Assistant, parts)] else messages
  }

  function LastParts(messages: seq<Message>): seq<Part> {
    if LastIsAssistant(messages) then messages[|messages| - 1].parts else []
  }

  /** A part at the end of the current message, or the first part of a new one. */
  function AddPart(c: Chat, part: Part): Chat {
    if c.current then c.(messages := OnLast(c.messages, LastParts(c.messages) + [part]))
    else c.(messages := c.messages + [Message(Assistant, [part])], current := true)
  }

  function WithToken(parts: seq<Part>, token: string): seq<Part> {
    if parts != [] && parts[|parts| - 1].TextPart? then
      parts[..|parts| - 1] + [parts[|parts| - 1].(text := parts[|parts| - 1].text + token)]
    else parts + [TextPart(token, Some(Streaming))]
  }

  function AddToken(c: Chat, token: string): Chat {
    if c.current then c.(messages := OnLast(c.messages, WithToken(LastParts(c.messages), token)))
    else AddPart(c, TextPart(token, Some(Streaming)))
  }

  function FinishText(part: Part): Part {
    if part.TextPart? && part.progress == Some(Streaming) then part.(progress := Some(Finished)) else part
  }

  function Settle(part: Part, id: string, state: CallState): Part {
    if part.CallPart? && part.id == id && part.state.Running? then part.(state := state) else part
  }

  function FinishAll(parts: seq<Part>): seq<Part> {
    seq(|parts|, i requires 0 <= i < |parts| => FinishText(parts[i]))
  }

  function SettleAll(parts: seq<Part>, id: string, state: CallState): seq<Part> {
    seq(|parts|, i requires 0 <= i < |parts| => Settle(parts[i], id, state))
  }

  /** The first call of the node, or the length. */
  function FindCall(parts: seq<Part>, id: string): (k: nat)
    ensures k <= |parts| && (k < |parts| ==> parts[k].CallPart? && parts[k].id == id)
    ensures forall i :: 0 <= i < k ==> !(parts[i].CallPart? && parts[i].id == id)
  {
    if parts == [] || (parts[0].CallPart? && parts[0].id == id) then 0 else 1 + FindCall(parts[1..], id)
  }

  function ResultOf(parts: seq<Part>, id: string, output: Payload, isError: bool): Part {
    var k := FindCall(parts, id);
    if k < |parts| then ResultPart(id, parts[k].name, Some(parts[k].display), output, isError)
    else ResultPart(id, "", None, output, isError)
  }

  function Titled(e: Event): string
    requires e.NodeStart?
  {
    if e.title == "" then e.nodeType else e.title
  }

  /** What an event does to the messages and the refs. */
  function HandleChat(c: Chat, e: Event): Chat {
    match e
    case NodeStart(id, nodeType, _, input) =>
      var c1 := c.(started := c.started + {id}, nodeTypes := c.nodeTypes[id := nodeType]);
      if nodeType == "answer" || id in c.started then c1
      else AddPart(c1, CallPart(id, nodeType, Titled(e), input, Running))
    case Token(id, token) =>
      if id in c.nodeTypes && c.nodeTypes[id] == "answer" then AddToken(c, token) else c
    case NodeComplete(id, nodeType, output, _) =>
      var finished := FinishAll(LastParts(c.messages));
      if nodeType == "answer" then c.(messages := OnLast(c.messages, finished))
      else
        var parts := SettleAll(finished, id, Done);
        c.(messages := OnLast(c.messages, parts + [ResultOf(parts, id, output, false)]))
    case NodeFailed(id, message) =>
      var parts := SettleAll(LastParts(c.messages), id, Failed);
      c.(messages := OnLast(c.messages, parts + [ResultOf(parts, id, message, true)]), current := false)
    case WorkflowError(message) => c.(messages := c.messages + [Message(Assistant, [TextPart(message, None)])])
    case _ => c
  }

  function HandleTrace(t: Trace, nodeTypes: map<string, string>, e: Event): Trace {
    match e
    case WorkflowStart(total) => t.(done := 0, total := total)
    case NodeStart(id, nodeType, _, input) =>
      t.(nodes := t.nodes[id := Node(nodeType, Titled(e), NodeRunning, input, None, None, None, "")], currentNode := Some(id))
    case Token(id, token) =>
      if id in nodeTypes && nodeTypes[id] == "answer" then t
      else if id in t.nodes then t.(nodes := t.nodes[id := t.nodes[id].(streamed := t.nodes[id].streamed + token)])
      else t
    case NodeComplete(id, _, output, duration) =>
      var nodes := if id in t.nodes
                   then t.nodes[id := t.nodes[id].(status := NodeCompleted, duration := Some(duration), output := Some(output))]
                   else t.nodes;
      t.(nodes := nodes, done := t.done + 1)
    case NodeFailed(id, message) =>
      if id in t.nodes then t.(nodes := t.nodes[id := t.nodes[id].(status := NodeError, error := Some(message))]) else t
    case NodeSkip(id) =>
      if id in t.nodes then t.(nodes := t.nodes[id := t.nodes[id].(status := NodeSkipped)]) else t
    case _ => t
  }

  function HandlePanel(p: Panel, e: Event): Panel {
    match e
    case WorkflowStart(_) => p.(status := Active)
    case Output(result) => p.(outputs := Some(result))
    case WorkflowWaiting => p.(status := Waiting, streaming := false)
    case WorkflowComplete(final) =>
      p.(outputs := if final.Some? then final else p.outputs, status := Success, streaming := false)
    case WorkflowError(message) => p.(error := Some(message), status := Failure, streaming := false)
    case _ => p
  }

  /** The chat when a run has been started; a resumed or reset run does not clear the started nodes. */
  function Begun(c: Chat, query: string): Chat {
    Chat(if query == "" then c.messages else c.messages + [Message(User, [TextPart(query, None)])], false, map[], {})
  }

  function Emptied(c: Chat): Chat {
    c.(messages := [], current := false, nodeTypes := map[])
  }

  // ---------------------------------------------------------------- the hook

  class Hook {
    var messages: seq<Message>
    var currentMessage: bool
    var nodeTypes: map<string, string>
    var startedNodeIds: set<string>
    var trace: Trace
    var panel: Panel
    var lastSequence: int

    ghost function Contents(): Chat
      reads this
    {
      Chat(messages, currentMessage, nodeTypes, startedNodeIds)
    }

    constructor ()
      ensures Contents() == Chat([], false, map[], {}) && trace == NO_TRACE && lastSequence == 0
      ensures panel == Panel(Idle, false, None, None, None)
    {
      messages, currentMessage, nodeTypes, startedNodeIds := [], false, map[], {};
      trace, panel, lastSequence := NO_TRACE, Panel(Idle, false, None, None, None), 0;
    }

    method Reset()
      modifies this
      ensures Contents() == Emptied(old(Contents())) && trace == NO_TRACE && lastSequence == 0
      ensures messages == [] && !currentMessage && nodeTypes == map[] && startedNodeIds == old(startedNodeIds)
      ensures panel == Panel(Idle, false, None, None, None)
    {
      panel := panel.(runId := None);
      messages := [];
      trace := NO_TRACE;
      panel := Panel(Idle, false, None, None, None);
      currentMessage := false;
      nodeTypes := map[];
      lastSequence := 0;
    }

    /** `start`; the server answers with the run id or not at all. */
    method Start(query: string, answer: Option<string>, failure: string)
      modifies this
      ensures Contents() == Begun(old(Contents()), query) && trace == NO_TRACE && lastSequence == 0
      ensures panel == if answer.Some? then Panel(Pending, true, None, None, answer)
                       else Panel(Failure, false, None, Some(failure), old(panel).runId)
    {
      panel := panel.(streaming := true, status := Pending, outputs := None, error := None);
      if query != "" {
        messages := messages + [Message(User, [TextPart(query, None)])];
      }
      trace := NO_TRACE;
      currentMessage := false;
      nodeTypes := map[];
      startedNodeIds := {};
      lastSequence := 0;
      if answer.Some? {
        panel := panel.(runId := answer);
      } else {
        panel := panel.(streaming := false, status := Failure, error := Some(failure));
      }
    }

    /** `resume` a waiting run; the stream reopens after the last sequence seen. */
    method Resume() returns (fromSequence: Option<int>)
      modifies this`panel
      ensures fromSequence == if old(panel).runId.Some? && old(panel).status.Waiting? then Some(lastSequence) else None
      ensures panel == if fromSequence.Some? then old(panel).(status := Pending, streaming := true) else old(panel)
    {
      if panel.runId.None? || !panel.status.Waiting? {
        return None;
      }
      panel := panel.(status := Pending);
      panel := panel.(streaming := true);
      fromSequence := Some(lastSequence);
    }

    method OnEvent(sequence: int, e: Event)
      modifies this
      ensures lastSequence == if old(lastSequence) < sequence then sequence else old(lastSequence)
      ensures Contents() == HandleChat(old(Contents()), e)
      ensures trace == HandleTrace(old(trace), old(nodeTypes), e) && panel == HandlePanel(old(panel), e)
    {
      if lastSequence < sequence {
        lastSequence := sequence;
      }
      HandleWorkflowEvent(e);
    }

    method AppendPart(part: Part)
      modifies this`messages, this`currentMessage
      ensures Contents() == AddPart(old(Contents()), part)
    {
      if !currentMessage {
        currentMessage := true;
        messages := messages + [Message(Assistant, [part])];
      } else if LastIsAssistant(messages) {
        var last := messages[|messages| - 1];
        messages := messages[|messages| - 1 := Message(Assistant, last.parts + [part])];
      }
    }

    method AppendToken(token: string)
      modifies this`messages, this`currentMessage
      ensures Contents() == AddToken(old(Contents()), token)
    {
      if !currentMessage {
        AppendPart(TextPart(token, Some(Streaming)));
      } else if LastIsAssistant(messages) {
        var parts := messages[|messages| - 1].parts;
        if parts != [] && parts[|parts| - 1].TextPart? {
          parts := parts[|parts| - 1 := parts[|parts| - 1].(text := parts[|parts| - 1].text + token)];
        } else {
          parts := parts + [TextPart(token, Some(Streaming))];
        }
        assert parts == WithToken(LastParts(messages), token);
        messages := messages[|messages| - 1 := Message(Assistant, parts)];
      }
    }

    method FinishTexts()
      modifies this`messages
      ensures messages == OnLast(old(messages), FinishAll(LastParts(old(messages))))
    {
      if LastIsAssistant(messages) {
        var parts := messages[|messages| - 1].parts;
        for i := 0 to |parts|
          invariant |parts| == |LastParts(messages)|
          invariant forall k :: 0 <= k < |parts| ==> parts[k] == if k < i then FinishText(LastParts(messages)[k]) else LastParts(messages)[k]
        {
          if parts[i].TextPart? && parts[i].progress == Some(Streaming) {
            parts := parts[i := parts[i].(progress := Some(Finished))];
          }
        }
        assert parts == FinishAll(LastParts(messages));
        messages := messages[|messages| - 1 := Message(Assistant, parts)];
      }
    }

    /** Settles the node's running calls in the last message and appends the result. */
    method SettleCall(id: string, state: CallState, output: Payload, isError: bool)
      modifies this`messages
      ensures var parts := SettleAll(LastParts(old(messages)), id, state);
              messages == OnLast(old(messages), parts + [ResultOf(parts, id, output, isError)])
    {
      if LastIsAssistant(messages) {
        var parts := messages[|messages| - 1].parts;
        for i := 0 to |parts|
          invariant |parts| == |LastParts(messages)|
          invariant forall k :: 0 <= k < |parts| ==> parts[k] == if k < i then Settle(LastParts(messages)[k], id, state) else LastParts(messages)[k]
        {
          if parts[i].CallPart? && parts[i].id == id && parts[i].state.Running? {
            parts := parts[i := parts[i].(state := state)];
          }
        }
        assert parts == SettleAll(LastParts(messages), id, state);
        messages := messages[|messages| - 1 := Message(Assistant, parts + [ResultOf(parts, id, output, isError)])];
      }
    }

    /** The status and the results next to the chat. */
    method ShowStatus(e: Event)
      modifies this`panel
      ensures panel == HandlePanel(old(panel), e)
    {
      match e {
        case WorkflowStart(_) => panel := panel.(status := Active);
        case Output(result) => panel := panel.(outputs := Some(result));
        case WorkflowWaiting =>
          panel := panel.(status := Waiting);
          panel := panel.(streaming := false);
        case WorkflowComplete(final) =>
          if final.Some? { panel := panel.(outputs := final); }
          panel := panel.(status := Success);
          panel := panel.(streaming := false);
        case WorkflowError(message) =>
          panel := panel.(error := Some(message));
          panel := panel.(status := Failure);
          panel := panel.(streaming := false);
        case _ =>
      }
    }

    /** The trace of the nodes; a token of an answer node is not traced. */
    method TraceNodes(e: Event)
      modifies this`trace
      ensures trace == HandleTrace(old(trace), nodeTypes, e)
    {
      match e {
        case WorkflowStart(total) => trace := trace.(done := 0, total := total);
        case NodeStart(id, nodeType, _, input) =>
          PutNode(id, Node(nodeType, Titled(e), NodeRunning, input, None, None, None, ""));
          trace := trace.(currentNode := Some(id));
        case Token(id, token) =>
          if !(id in nodeTypes && nodeTypes[id] == "answer") && id in trace.nodes {
            PutNode(id, trace.nodes[id].(streamed := trace.nodes[id].streamed + token));
          }
        case NodeComplete(id, _, output, duration) =>
          if id in trace.nodes {
            PutNode(id, trace.nodes[id].(status := NodeCompleted, duration := Some(duration), output := Some(output)));
          }
          trace := trace.(done := trace.done + 1);
        case NodeFailed(id, message) =>
          if id in trace.nodes { PutNode(id, trace.nodes[id].(status := NodeError, error := Some(message))); }
        case NodeSkip(id) =>
          if id in trace.nodes { PutNode(id, trace.nodes[id].(status := NodeSkipped)); }
        case _ =>
      }
    }

    method PutNode(id: string, node: Node)
      modifies this`trace
      ensures trace == old(trace).(nodes := old(trace).nodes[id := node])
    {
      trace := trace.(nodes := trace.nodes[id := node]);
    }

    method HandleWorkflowEvent(e: Event)
      modifies this`messages, this`currentMessage, this`nodeTypes, this`startedNodeIds, this`trace, this`panel
      ensures Contents() == HandleChat(old(Contents()), e)
      ensures trace == HandleTrace(old(trace), old(nodeTypes), e) && panel == HandlePanel(old(panel), e)
    {
      ShowStatus(e);
      TraceNodes(e);
      match e {
        case NodeStart(id, nodeType, _, input) =>
          var resumed := id in startedNodeIds;
          startedNodeIds := startedNodeIds + {id};
          nodeTypes := nodeTypes[id := nodeType];
          if nodeType != "answer" && !resumed {
            AppendPart(CallPart(id, nodeType, Titled(e), input, Running));
          }
        case Token(id, token) =>
          if id in nodeTypes && nodeTypes[id] == "answer" {
            AppendToken(token);
          }
        case NodeComplete(id, nodeType, output, _) =>
          FinishTexts();
          if nodeType != "answer" {
            SettleCall(id, Done, output, false);
          }
        case NodeFailed(id, message) =>
          SettleCall(id, Failed, message, true);
          currentMessage := false;
        case WorkflowError(message) =>
          messages := messages + [Message(Assistant, [TextPart(message, None)])];
        case WorkflowStart(_) =>
        case NodeSkip(_) =>
        case Output(_) =>
        case WorkflowWaiting =>
        case WorkflowComplete(_) =>
        case OtherEvent =>
      }
    }
  }

  // ---------------------------------------------------------------- what runs produce

  /** A set ref points at the assistant message at the end. */
  predicate CurrentIsLast(c: Chat) {
    c.current ==> LastIsAssistant(c.messages)
  }

  function TextOf(parts: seq<Part>): string {
    if parts == [] then ""
    else TextOf(parts[..|parts| - 1]) + (if parts[|parts| - 1].TextPart? then parts[|parts| - 1].text else "")
  }

  /** All text of the assistant's messages. */
  function AssistantText(messages: seq<Message>): string {
    if messages == [] then ""
    else
      var last := messages[|messages| - 1];
      AssistantText(messages[..|messages| - 1]) + (if last.role.Assistant? then TextOf(last.parts) else "")
  }

  function CallIds(parts: seq<Part>): seq<string> {
    if parts == [] then []
    else CallIds(parts[..|parts| - 1]) + (if parts[|parts| - 1].CallPart? then [parts[|parts| - 1].id] else [])
  }

  /** The nodes with a call, message by message. */
  function Calls(messages: seq<Message>): seq<string> {
    if messages == [] then [] else Calls(messages[..|messages| - 1]) + CallIds(messages[|messages| - 1].parts)
  }

  /** The characters an event shows: answer tokens and workflow errors. */
  function Shown(c: Chat, e: Event): string {
    match e
    case Token(id, token) => if id in c.nodeTypes && c.nodeTypes[id] == "answer" then token else ""
    case WorkflowError(message) => message
    case _ => ""
  }

  /** The call an event adds: of a node that starts for the first time and is no answer node. */
  function NewCall(c: Chat, e: Event): seq<string> {
    if e.NodeStart? && e.nodeType != "answer" && e.id !in c.started then [e.id] else []
  }

  lemma TextPush(parts: seq<Part>, part: Part)
    ensures TextOf(parts + [part]) == TextOf(parts) + (if part.TextPart? then part.text else "")
    ensures CallIds(parts + [part]) == CallIds(parts) + (if part.CallPart? then [part.id] else [])
  {
    assert (parts + [part])[..|parts|] == parts;
  }

  lemma MessagePush(messages: seq<Message>, m: Message)
    ensures AssistantText(messages + [m]) == AssistantText(messages) + (if m.role.Assistant? then TextOf(m.parts) else "")
    ensures Calls(messages + [m]) == Calls(messages) + CallIds(m.parts)
  {
    assert (messages + [m])[..|messages|] == messages;
  }

  /** Other states of the same parts. */
  predicate SameContents(a: seq<Part>, b: seq<Part>) {
    |a| == |b| && forall i :: 0 <= i < |a| ==>
      && (a[i].TextPart? <==> b[i].TextPart?) && (a[i].TextPart? ==> a[i].text == b[i].text)
      && (a[i].CallPart? <==> b[i].CallPart?) && (a[i].CallPart? ==> a[i].id == b[i].id)
  }

  lemma {:induction false} SameContentsSame(a: seq<Part>, b: seq<Part>)
    requires SameContents(a, b)
    ensures TextOf(a) == TextOf(b) && CallIds(a) == CallIds(b)
  {
    if a != [] { SameContentsSame(a[..|a| - 1], b[..|b| - 1]); }
  }

  /** New parts for the last assistant message, with more text or calls at the end. */
  lemma LastGrows(messages: seq<Message>, parts: seq<Part>, text: string, calls: seq<string>)
    requires LastIsAssistant(messages)
    requires TextOf(parts) == TextOf(LastParts(messages)) + text && CallIds(parts) == CallIds(LastParts(messages)) + calls
    ensures AssistantText(OnLast(messages, parts)) == AssistantText(messages) + text
    ensures Calls(OnLast(messages, parts)) == Calls(messages) + calls
  {
    var front := messages[..|messages| - 1];
    MessagePush(front, Message(Assistant, parts));
    Regroup(AssistantText(front), TextOf(LastParts(messages)), text);
    assert Calls(front) + (CallIds(LastParts(messages)) + calls) == Calls(front) + CallIds(LastParts(messages)) + calls;
  }

  /** The text and the calls a part brings. */
  function PartText(part: Part): string {
    if part.TextPart? then part.text else ""
  }

  function PartCalls(part: Part): seq<string> {
    if part.CallPart? then [part.id] else []
  }

  lemma OnePart(part: Part)
    ensures TextOf([part]) == PartText(part) && CallIds([part]) == PartCalls(part)
  {
    assert [] + [part] == [part];
    TextPush([], part);
  }

  lemma PartAdded(c: Chat, part: Part)
    requires CurrentIsLast(c)
    ensures CurrentIsLast(AddPart(c, part))
    ensures AssistantText(AddPart(c, part).messages) == AssistantText(c.messages) + PartText(part)
    ensures Calls(AddPart(c, part).messages) == Calls(c.messages) + PartCalls(part)
  {
    if c.current {
      TextPush(LastParts(c.messages), part);
      LastGrows(c.messages, LastParts(c.messages) + [part], PartText(part), PartCalls(part));
    } else {
      OnePart(part);
      MessagePush(c.messages, Message(Assistant, [part]));
    }
  }

  lemma TokenParts(parts: seq<Part>, token: string)
    ensures TextOf(WithToken(parts, token)) == TextOf(parts) + token && CallIds(WithToken(parts, token)) == CallIds(parts) + []
  {
    if parts != [] && parts[|parts| - 1].TextPart? {
      var front, last := parts[..|parts| - 1], parts[|parts| - 1];
      assert parts == front + [last];
      TextPush(front, last);
      TextPush(front, last.(text := last.text + token));
      Regroup(TextOf(front), last.text, token);
    } else {
      TextPush(parts, TextPart(token, Some(Streaming)));
    }
  }

  lemma TokenAdded(c: Chat, token: string)
    requires CurrentIsLast(c)
    ensures CurrentIsLast(AddToken(c, token))
    ensures AssistantText(AddToken(c, token).messages) == AssistantText(c.messages) + token
    ensures Calls(AddToken(c, token).messages) == Calls(c.messages)
  {
    if c.current {
      TokenParts(LastParts(c.messages), token);
      LastGrows(c.messages, WithToken(LastParts(c.messages), token), token, []);
      assert Calls(c.messages) + [] == Calls(c.messages);
    } else {
      PartAdded(c, TextPart(token, Some(Streaming)));
    }
  }

  lemma PartsSettled(messages: seq<Message>, parts: seq<Part>)
    requires SameContents(LastParts(messages), parts)
    ensures AssistantText(OnLast(messages, parts)) == AssistantText(messages) && Calls(OnLast(messages, parts)) == Calls(messages)
    ensures forall result: Part :: result.ResultPart? ==>
              && AssistantText(OnLast(messages, parts + [result])) == AssistantText(messages)
              && Calls(OnLast(messages, parts + [result])) == Calls(messages)
  {
    SameContentsSame(LastParts(messages), parts);
    if LastIsAssistant(messages) {
      assert TextOf(parts) + "" == TextOf(parts) && CallIds(parts) + [] == CallIds(parts);
      LastGrows(messages, parts, "", []);
      forall result: Part | result.ResultPart?
        ensures AssistantText(OnLast(messages, parts + [result])) == AssistantText(messages) + ""
        ensures Calls(OnLast(messages, parts + [result])) == Calls(messages) + []
      {
        TextPush(parts, result);
        LastGrows(messages, parts + [result], "", []);
      }
      assert AssistantText(messages) + "" == AssistantText(messages) && Calls(messages) + [] == Calls(messages);
    }
  }

  lemma StartStep(c: Chat, e: Event)
    requires CurrentIsLast(c) && e.NodeStart?
    ensures CurrentIsLast(HandleChat(c, e))
    ensures AssistantText(HandleChat(c, e).messages) == AssistantText(c.messages)
    ensures Calls(HandleChat(c, e).messages) == Calls(c.messages) + NewCall(c, e)
  {
    var c1 := c.(started := c.started + {e.id}, nodeTypes := c.nodeTypes[e.id := e.nodeType]);
    if e.nodeType == "answer" || e.id in c.started {
      assert Calls(c.messages) + [] == Calls(c.messages);
    } else {
      PartAdded(c1, CallPart(e.id, e.nodeType, Titled(e), e.input, Running));
      assert AssistantText(c.messages) + "" == AssistantText(c.messages);
    }
  }

  lemma EndStep(c: Chat, e: Event)
    requires CurrentIsLast(c) && (e.NodeComplete? || e.NodeFailed?)
    ensures CurrentIsLast(HandleChat(c, e))
    ensures AssistantText(HandleChat(c, e).messages) == AssistantText(c.messages)
    ensures Calls(HandleChat(c, e).messages) == Calls(c.messages)
  {
    var parts := LastParts(c.messages);
    if e.NodeComplete? {
      PartsSettled(c.messages, FinishAll(parts));
      PartsSettled(c.messages, SettleAll(FinishAll(parts), e.id, Done));
    } else {
      PartsSettled(c.messages, SettleAll(parts, e.id, Failed));
    }
  }

  lemma ErrorStep(messages: seq<Message>, message: string)
    ensures var after := messages + [Message(Assistant, [TextPart(message, None)])];
            AssistantText(after) == AssistantText(messages) + message && Calls(after) == Calls(messages)
  {
    MessagePush(messages, Message(Assistant, [TextPart(message, None)]));
    OnePart(TextPart(message, None));
  }

  /** Every event keeps the ref at the last message, adds exactly the characters it shows at the end
      of the assistant's text, and at most one call. */
  lemma EventStep(c: Chat, e: Event)
    requires CurrentIsLast(c)
    ensures CurrentIsLast(HandleChat(c, e))
    ensures AssistantText(HandleChat(c, e).messages) == AssistantText(c.messages) + Shown(c, e)
    ensures Calls(HandleChat(c, e).messages) == Calls(c.messages) + NewCall(c, e)
  {
    assert AssistantText(c.messages) + "" == AssistantText(c.messages) && Calls(c.messages) + [] == Calls(c.messages);
    match e
    case NodeStart(_, _, _, _) => StartStep(c, e);
    case Token(_, token) => TokenAdded(c, token);
    case NodeComplete(_, _, _, _) => EndStep(c, e);
    case NodeFailed(_, _) => EndStep(c, e);
    case WorkflowError(message) => ErrorStep(c.messages, message);
    case _ =>
  }

  function HandleAll(c: Chat, events: seq<Event>): Chat {
    if events == [] then c else HandleChat(HandleAll(c, events[..|events| - 1]), events[|events| - 1])
  }

  /** The type of a node by the last of the events that starts it. */
  function LatestType(events: seq<Event>, id: string): Option<string> {
    if events == [] then None
    else
      var last := events[|events| - 1];
      if last.NodeStart? && last.id == id then Some(last.nodeType) else LatestType(events[..|events| - 1], id)
  }

  /** The answer tokens and workflow errors of a run, in the order of their arrival. */
  function RunText(events: seq<Event>): string {
    if events == [] then ""
    else
      var front, last := events[..|events| - 1], events[|events| - 1];
      RunText(front)
      + match last
        case Token(id, token) => if LatestType(front, id) == Some("answer") then token else ""
        case WorkflowError(message) => message
        case _ => ""
  }

  /** The nodes a run starts, each when it starts first, except those that start as answer nodes. */
  function FirstCalls(events: seq<Event>): seq<string> {
    if events == [] then []
    else
      var front, last := events[..|events| - 1], events[|events| - 1];
      FirstCalls(front)
      + (if last.NodeStart? && last.nodeType != "answer" && LatestType(front, last.id).None? then [last.id] else [])
  }

  /** The refs know which nodes the run has started, and as what. */
  lemma {:induction false} RefsFollow(c: Chat, query: string, events: seq<Event>, id: string)
    ensures var r := HandleAll(Begun(c, query), events);
            && (id in r.nodeTypes <==> id in r.started) && (id in r.started <==> LatestType(events, id).Some?)
            && (id in r.nodeTypes ==> Some(r.nodeTypes[id]) == LatestType(events, id))
  {
    if events != [] {
      var front, last := events[..|events| - 1], events[|events| - 1];
      RefsFollow(c, query, front, id);
      RefsStep(HandleAll(Begun(c, query), front), last, id);
    }
  }

  /** Only the start of a node changes what the refs know of it. */
  lemma RefsStep(c: Chat, e: Event, id: string)
    ensures var r, starts := HandleChat(c, e), e.NodeStart? && e.id == id;
            && (id in r.started <==> id in c.started || starts) && (id in r.nodeTypes <==> id in c.nodeTypes || starts)
            && (starts ==> r.nodeTypes[id] == e.nodeType)
            && (!starts && id in c.nodeTypes ==> r.nodeTypes[id] == c.nodeTypes[id])
  {
  }

  /** From `c` the run came to `r`: a set ref points at the last message, an assistant's, and the text
      and the calls are those of `c` and these. */
  ghost predicate Produced(c: Chat, r: Chat, text: string, calls: seq<string>) {
    && CurrentIsLast(r)
    && AssistantText(r.messages) == AssistantText(c.messages) + text
    && Calls(r.messages) == Calls(c.messages) + calls
  }

  lemma ProducedMore(c: Chat, r: Chat, text: string, calls: seq<string>, e: Event)
    requires Produced(c, r, text, calls)
    ensures Produced(c, HandleChat(r, e), text + Shown(r, e), calls + NewCall(r, e))
  {
    EventStep(r, e);
    ProducedLonger(c, r, HandleChat(r, e), text, calls, Shown(r, e), NewCall(r, e));
  }

  lemma ProducedLonger(c: Chat, r: Chat, r1: Chat, text: string, calls: seq<string>, more: string, next: seq<string>)
    requires Produced(c, r, text, calls) && Produced(r, r1, more, next)
    ensures Produced(c, r1, text + more, calls + next)
  {
    Regroup(AssistantText(c.messages), text, more);
    assert Calls(c.messages) + calls + next == Calls(c.messages) + (calls + next);
  }

  lemma ProducedNothing(c: Chat, query: string)
    ensures Produced(c, Begun(c, query), "", [])
  {
    MessagePush(c.messages, Message(User, [TextPart(query, None)]));
    OnePart(TextPart(query, None));
  }

  /** Over every run, whatever was there before: a set ref points at the last message, an assistant's;
      the assistant's text grew by exactly the answer tokens and workflow errors, in order; and the
      calls grew by those of the nodes that started, each once. */
  lemma {:induction false} RunProduces(c: Chat, query: string, events: seq<Event>)
    ensures Produced(c, HandleAll(Begun(c, query), events), RunText(events), FirstCalls(events))
  {
    if events == [] {
      ProducedNothing(c, query);
    } else {
      var front, last := events[..|events| - 1], events[|events| - 1];
      assert events == front + [last];
      RunProduces(c, query, front);
      ShownInRun(c, query, front, last);
      ProducedMore(c, HandleAll(Begun(c, query), front), RunText(front), FirstCalls(front), last);
    }
  }

  lemma ShownInRun(c: Chat, query: string, front: seq<Event>, last: Event)
    ensures var r := HandleAll(Begun(c, query), front);
            && RunText(front + [last]) == RunText(front) + Shown(r, last)
            && FirstCalls(front + [last]) == FirstCalls(front) + NewCall(r, last)
            && HandleAll(Begun(c, query), front + [last]) == HandleChat(r, last)
  {
    assert (front + [last])[..|front|] == front;
    if last.Token? || last.NodeStart? { RefsFollow(c, query, front, last.id); }
  }

  /** No node is among the first calls twice, also when a resumed pause starts it again. */
  lemma {:induction false} CallsAreDistinct(events: seq<Event>)
    ensures forall i, j :: 0 <= i < j < |FirstCalls(events)| ==> FirstCalls(events)[i] != FirstCalls(events)[j]
    ensures forall id :: id in FirstCalls(events) ==> LatestType(events, id).Some?
  {
    if events != [] {
      CallsAreDistinct(events[..|events| - 1]);
    }
  }

  /** A running call settles when its node ends exactly if it stands in the last message, and that is
      the assistant's: a call before a failed node, or before a later message, keeps running. */
  lemma CallSettlesInLastMessage(c: Chat, e: Event, m: nat, i: nat)
    requires (e.NodeComplete? && e.nodeType != "answer") || e.NodeFailed?
    requires m < |c.messages| && i < |c.messages[m].parts|
    requires var part := c.messages[m].parts[i]; part.CallPart? && part.id == e.id && part.state.Running?
    ensures var after := HandleChat(c, e).messages;
            && |after| == |c.messages| && i < |after[m].parts| && after[m].parts[i].CallPart?
            && (after[m].parts[i].state.Running? <==> !(m == |c.messages| - 1 && LastIsAssistant(c.messages)))
  {
  }
}
