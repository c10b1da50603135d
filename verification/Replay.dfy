/** The durable-run replay protocol of the chat hook: a sequence gate, subscriptions that drop
    and reopen, generations that silence stale callbacks, and snapshots for coming back.

    `Step` moves the client by one callback or user action; the environment (server log,
    network, session storage, user) is everything an `Action` chooses freely.
  */
module Replay {
  import opened Options
  import opened ChatParts
  import opened Timeline

  type RunId = string
  type Conversation = string
  type SessionId = nat

  /** One durable event of a run, as far as the session is concerned. */
  datatype EventBody =
    | Streamed(event: StreamEvent)
    | MessageEnd
    | RunError
    | InputAccepted(content: string)
    | Waiting(askUserId: Option<string>)
    | Silent                               // run_start, message_start, other status changes
    | RunEnd

  datatype LogEvent = LogEvent(sequence: nat, payload: EventBody)

  /** The server's logs, and the conversation every run belongs to. */
  datatype Server = Server(logs: map<RunId, seq<LogEvent>>, home: map<RunId, Conversation>)
  {
    function Log(r: RunId): seq<LogEvent> {
      if r in logs then logs[r] else []
    }
  }

  predicate Ascending(log: seq<LogEvent>) {
    && (forall i :: 0 <= i < |log| ==> log[i].sequence >= 1)
    && (forall i, j :: 0 <= i < j < |log| ==> log[i].sequence < log[j].sequence)
  }

  predicate WellFormed(server: Server) {
    forall r :: r in server.logs ==> Ascending(server.logs[r])
  }

  /** Where a stream opened after sequence `q` starts in the log. */
  function After(log: seq<LogEvent>, q: nat): (n: nat)
    ensures n <= |log|
  {
    if log == [] || log[0].sequence > q then 0 else 1 + After(log[1..], q)
  }

  /** An open event stream: the original one of a start, which provides its session and is guarded by
      the connection epoch, or a subscription, guarded by its generation and by the tracked run. */
  datatype EventSource = EventSource(run: RunId, provided: Option<SessionId>, stamp: nat, next: nat)

  /** A call suspended at an `await`: `startRun` in `sendMessage`, or a request of `reconnectToRun`. */
  datatype Pending =
    | Starting(epoch: nat, session: SessionId)
    | Discovering(generation: nat, conversation: Conversation)
    | ReadingStatus(generation: nat, conversation: Conversation, run: RunId)

  datatype Snapshot = Snapshot(run: RunId, last: nat)

  /** The sequence gate: the tracked run, the last sequence seen, and every key applied. */
  datatype Gate = Gate(runId: Option<RunId>, last: nat, applied: set<(RunId, nat)>)
  {
    function Track(r: RunId): Gate {
      if runId == Some(r) then this else Gate(Some(r), 0, {})
    }

    predicate Passes(r: RunId, e: LogEvent) {
      var g := Track(r);
      (r, e.sequence) !in g.applied && !(g.last != 0 && e.sequence <= g.last)
    }

    function Marked(r: RunId, e: LogEvent): Gate {
      var g := Track(r);
      Gate(g.runId, if g.last < e.sequence then e.sequence else g.last, g.applied + {(r, e.sequence)})
    }
  }

  const CLOSED_GATE := Gate(None, 0, {})

  /** The session of one message. Its run is not known until its start is answered. History: `base`, the
      text its message had when it was made, `got`, the events it was handed, `from`, how many events of
      its run had passed the gate before the first of them, and `pure`, that they are all of its run. */
  datatype Session = Session(run: Option<RunId>, state: State, base: string, from: nat, got: seq<LogEvent>, pure: bool)
  {
    /** The session comes to belong to run `r`. */
    function Bound(r: RunId): Session {
      this.(run := Some(r), pure := pure && (got == [] || run == Some(r)))
    }

    /** An event of run `r` is applied, behind `n` others that passed. */
    function Fed(r: RunId, e: LogEvent, n: nat, now: int): Session {
      Bound(r).(state := Affect(state, e.payload, now), from := if got == [] then n else from, got := got + [e])
    }
  }

  const NEW_SESSION := Session(None, EMPTY_STATE, "", 0, [], true)

  /** The sessions of a page: the active one, those registered by run, and all that were made.
      History: `served`, the session that was handed the last event of a run in this page; `passed`, the
      events of every run that passed the gate, whatever page it was in; `before`, those that passed
      before this page was loaded; and `ended`, the runs whose end was seen. */
  datatype Desk = Desk(
    active: Option<SessionId>, registry: map<RunId, SessionId>, book: map<SessionId, Session>, made: nat,
    served: map<RunId, SessionId>, passed: map<RunId, seq<LogEvent>>, before: map<RunId, seq<LogEvent>>,
    ended: set<RunId>)
  {
    function Seat(id: SessionId): Session {
      if id in book then book[id] else NEW_SESSION
    }

    function ActiveRun(): Option<RunId> {
      if active.Some? then Seat(active.value).run else None
    }

    function Passed(r: RunId): seq<LogEvent> {
      if r in passed then passed[r] else []
    }

    function Before(r: RunId): seq<LogEvent> {
      if r in before then before[r] else []
    }

    /** A new session for a run that is being started. */
    function Opened(): Desk {
      this.(active := Some(made), book := book[made := NEW_SESSION], made := made + 1)
    }

    /** The start is answered: its session belongs to a run. */
    function Named(id: SessionId, r: RunId): Desk {
      this.(book := book[id := Seat(id).Bound(r)])
    }

    /** An event that passed is applied to a session, which becomes the active, registered one. */
    function Handed(id: SessionId, r: RunId, e: LogEvent, now: int): Desk {
      this.(active := Some(id), registry := registry[r := id], served := served[r := id],
            book := book[id := Seat(id).Fed(r, e, |Passed(r)|, now)])
    }

    function Noted(r: RunId, e: LogEvent): Desk {
      this.(passed := passed[r := Passed(r) + [e]])
    }

    function Closed(r: RunId): Desk {
      this.(active := if ActiveRun() == Some(r) then None else active, registry := registry - {r}, ended := ended + {r})
    }

    /** An event passes: its session gets it, if there is one, and the run may end with it. */
    function Received(session: Option<SessionId>, r: RunId, e: LogEvent, now: int): Desk {
      var d := (if session.Some? then Handed(session.value, r, e, now) else this).Noted(r, e);
      if e.payload.RunEnd? then d.Closed(r) else d
    }

    /** `ensureSession`: the registered session of the run becomes active, remade if it is still empty and
        the message is not; without one, a session is made from the message. */
    function Ensured(r: RunId, adopted: seq<Part>, now: int): Desk {
      if r !in registry then
        this.(active := Some(made), registry := registry[r := made], made := made + 1,
              book := book[made := Session(Some(r), FromParts(adopted, now), JoinText(adopted), 0, [], true)])
      else
        var id, s := registry[r], Seat(registry[r]);
        if s.state.segments == [] && adopted != [] then
          this.(active := Some(id), book := book[id := s.(state := FromParts(adopted, now), base := JoinText(adopted))])
        else this.(active := Some(id))
    }

    /** A step on the active session that is not an event of the log. */
    function Touched(step: Step, now: int): Desk {
      if active.None? then this
      else this.(book := book[active.value := Seat(active.value).(state := Do(Seat(active.value).state, step, now))])
    }

    function Asked(asking: Option<(string, Payload)>, now: int): Desk {
      if asking.None? then this else Touched(Rehydrate(asking.value.0, asking.value.1), now)
    }

    /** Another page: of the desk only the history survives. */
    function Reloaded(): Desk {
      NO_SESSIONS.(passed := passed, before := passed, ended := ended)
    }
  }

  const NO_SESSIONS := Desk(None, map[], map[], 0, map[], map[], map[], {})

  /** Epoch of the original stream, generations of reconnects and subscriptions. */
  datatype Counters = Counters(epoch: nat, reconnects: nat, subscriptions: nat)

  datatype Client = Client(
    conversation: Option<Conversation>, runConversation: Option<Conversation>,
    gate: Gate, counters: Counters, desk: Desk,
    snapshots: map<Conversation, Snapshot>, sources: seq<EventSource>, pending: seq<Pending>)

  const NEW_CLIENT := Client(None, None, CLOSED_GATE, Counters(0, 0, 0), NO_SESSIONS, map[], [], [])

  /** The steps an event causes on the session state. */
  function EffectOf(p: EventBody): seq<Step> {
    match p
    case Streamed(event) => [Event(event)]
    case MessageEnd => [Finish]
    case RunError => [Failure]
    case InputAccepted(content) => [Instruct(content)]
    case Waiting(id) => if id.Some? then [AskUser(id.value)] else []
    case Silent => []
    case RunEnd => [Finish]
  }

  function Affect(s: State, p: EventBody, now: int): State {
    var steps := EffectOf(p);
    if steps == [] then s else Do(s, steps[0], now)
  }

  function JoinText(parts: seq<Part>): string {
    if parts == [] then ""
    else JoinText(parts[..|parts| - 1])
         + (if parts[|parts| - 1].TextPart? then parts[|parts| - 1].text else "")
  }

  // ---------------------------------------------------------------- the hook's helpers

  /** Writing the snapshot may fail: session storage is optional. */
  function StoreSnapshot(c: Client, works: bool): Client {
    if works && c.runConversation.Some? && c.gate.runId.Some? then
      c.(snapshots := c.snapshots[c.runConversation.value := Snapshot(c.gate.runId.value, c.gate.last)])
    else c
  }

  function ClearSnapshot(c: Client): Client {
    if c.runConversation.Some? then c.(snapshots := c.snapshots - {c.runConversation.value}) else c
  }

  function Disconnect(n: Counters): Counters {
    Counters(n.epoch + 1, n.reconnects + 1, n.subscriptions + 1)
  }

  function StartSubscription(c: Client, server: Server, r: RunId): Client {
    var stamp := c.counters.subscriptions + 1;
    c.(counters := c.counters.(subscriptions := stamp),
       sources := c.sources + [EventSource(r, None, stamp, After(server.Log(r), c.gate.last))])
  }

  predicate Current(c: Client, s: EventSource) {
    if s.provided.Some? then s.stamp == c.counters.epoch
    else s.stamp == c.counters.subscriptions && c.gate.runId == Some(s.run)
  }

  /** The gate behind `applyIncomingEvent`: a passed event is marked and handed to its session, the
      provided one of an original stream or else the active one. */
  function Receive(c: Client, r: RunId, e: LogEvent, provided: Option<SessionId>, works: bool, now: int): Client {
    if !c.gate.Passes(r, e) then c.(gate := c.gate.Track(r))
    else
      var session := if provided.Some? then provided else c.desk.active;
      Recorded(c, c.gate.Marked(r, e), c.desk.Received(session, r, e, now), e.payload, session.Some?, works)
  }

  /** The end of a run untracks it and clears its snapshot; other events store one. */
  function Recorded(c: Client, gate: Gate, desk: Desk, payload: EventBody, heard: bool, works: bool): Client {
    if payload.RunEnd? then ClearSnapshot(c.(gate := gate.(runId := None), desk := desk))
    else if !heard && payload.Streamed? then c.(gate := gate, desk := desk)
    else StoreSnapshot(c.(gate := gate, desk := desk), works)
  }

  /** The synchronous tail of `reconnectToRun` once a run and a position are known. */
  function Resume(c: Client, generation: nat, conversation: Conversation, r: RunId, last: nat): Client {
    if c.desk.ActiveRun() == Some(r) then c
    else c.(gate := c.gate.Track(r).(last := last), runConversation := Some(conversation),
            pending := c.pending + [ReadingStatus(generation, conversation, r)])
  }

  function Remove<T>(items: seq<T>, i: nat): seq<T>
    requires i < |items|
  {
    items[..i] + items[i + 1..]
  }

  // ---------------------------------------------------------------- actions

  datatype RunStatus = Live | Over | Failed

  datatype Action =
    | Ask                                         // sendMessage up to the request that starts the run
    | Answered(call: nat, run: RunId, works: bool) // the run is started
    | Go(to: Option<Conversation>)                // the conversation changes
    | Reconnect(readable: bool)                   // focus, switch or poll: reconnectToRun
    | Discovered(call: nat, run: RunId)           // the server names the active run
    | StatusRead(call: nat, status: RunStatus, asking: Option<(string, Payload)>, adopted: seq<Part>, now: int)
    | GiveUp(call: nat)                           // a request fails
    | Resubscribe                                 // retry timer, end of the original stream, or an answered question
    | Deliver(source: nat, works: bool, now: int)
    | Drop(source: nat)
    | Reload                                      // another page of the same tab

  predicate Enabled(c: Client, server: Server, a: Action) {
    match a
    case Ask => true
    case Answered(i, r, _) => i < |c.pending| && c.pending[i].Starting? && r in server.home
    case Go(_) => true
    case Reconnect(_) => c.conversation.Some?
    case Discovered(i, r) =>
      i < |c.pending| && c.pending[i].Discovering? && r in server.home && server.home[r] == c.pending[i].conversation
    case StatusRead(i, _, _, _, _) => i < |c.pending| && c.pending[i].ReadingStatus?
    case GiveUp(i) => i < |c.pending|
    case Resubscribe => c.gate.runId.Some?
    case Deliver(i, _, _) => i < |c.sources| && c.sources[i].next < |server.Log(c.sources[i].run)|
    case Drop(i) => i < |c.sources|
    case Reload => true
  }

  /** `sendMessage` closes the gate, opens a session and asks the server for a run. */
  function DoAsk(c: Client): Client {
    var epoch := c.counters.epoch + 1;
    c.(gate := CLOSED_GATE, counters := c.counters.(epoch := epoch), desk := c.desk.Opened(),
       pending := c.pending + [Starting(epoch, c.desk.made)])
  }

  /** The answer is tracked and shown whatever has happened meanwhile; the stream is opened where the gate
      stands, unless the start is outdated. */
  function DoAnswered(c: Client, server: Server, i: nat, r: RunId, works: bool): Client
    requires i < |c.pending| && c.pending[i].Starting? && r in server.home
  {
    var p, home := c.pending[i], Some(server.home[r]);
    var c1 := StoreSnapshot(c.(pending := Remove(c.pending, i), gate := c.gate.Track(r), desk := c.desk.Named(p.session, r),
                               conversation := home, runConversation := home), works);
    if p.epoch != c.counters.epoch then c1
    else c1.(sources := c.sources + [EventSource(r, Some(p.session), p.epoch, After(server.Log(r), c1.gate.last))])
  }

  function DoGo(c: Client, to: Option<Conversation>): Client {
    if c.runConversation.Some? && c.runConversation != to then
      c.(gate := CLOSED_GATE, counters := Disconnect(c.counters), desk := c.desk.(active := None), conversation := to)
    else c.(conversation := to)
  }

  /** The run and position a reconnect to the conversation continues from, if known locally. */
  function Stored(c: Client, conversation: Conversation, readable: bool): Option<Snapshot> {
    if c.runConversation == Some(conversation) && c.gate.runId.Some? then Some(Snapshot(c.gate.runId.value, c.gate.last))
    else if readable && conversation in c.snapshots then Some(c.snapshots[conversation])
    else None
  }

  function DoReconnect(c: Client, conversation: Conversation, readable: bool): Client {
    var generation := c.counters.reconnects + 1;
    var c1 := c.(counters := c.counters.(reconnects := generation));
    var stored := Stored(c, conversation, readable);
    if stored.None? then c1.(pending := c.pending + [Discovering(generation, conversation)])
    else Resume(c1, generation, conversation, stored.value.run, stored.value.last)
  }

  function DoDiscovered(c: Client, i: nat, r: RunId): Client
    requires i < |c.pending| && c.pending[i].Discovering?
  {
    var p, c1 := c.pending[i], c.(pending := Remove(c.pending, i));
    if c.counters.reconnects != p.generation || c.conversation != Some(p.conversation) then c1
    else Resume(c1, p.generation, p.conversation, r, 0)
  }

  predicate CurrentCall(c: Client, p: Pending)
    requires p.ReadingStatus?
  {
    c.counters.reconnects == p.generation && c.conversation == Some(p.conversation)
    && c.runConversation == Some(p.conversation) && c.gate.runId == Some(p.run)
  }

  function DoStatus(c: Client, server: Server, i: nat, status: RunStatus, asking: Option<(string, Payload)>,
                    adopted: seq<Part>, now: int): Client
    requires i < |c.pending| && c.pending[i].ReadingStatus?
  {
    var p, c1 := c.pending[i], c.(pending := Remove(c.pending, i));
    if !CurrentCall(c, p) then c1
    else if status == Live then
      StartSubscription(c1.(desk := c.desk.Ensured(p.run, adopted, now).Asked(asking, now)), server, p.run)
    else
      var desk := if status == Failed then c.desk.Ensured(p.run, adopted, now).Touched(Failure, now) else c.desk;
      ClearSnapshot(c1.(gate := c.gate.(runId := None), counters := Disconnect(c.counters), desk := desk.Closed(p.run)))
  }

  function DoDeliver(c: Client, server: Server, i: nat, works: bool, now: int): Client
    requires i < |c.sources| && c.sources[i].next < |server.Log(c.sources[i].run)|
  {
    var s := c.sources[i];
    if !Current(c, s) then c.(sources := Remove(c.sources, i))
    else
      var c1 := Receive(c, s.run, server.Log(s.run)[s.next], s.provided, works, now);
      c1.(sources := c.sources[i := s.(next := s.next + 1)])
  }

  /** A new page starts afresh, with the snapshots of the old one. */
  function DoReload(c: Client): Client {
    NEW_CLIENT.(snapshots := c.snapshots, desk := c.desk.Reloaded())
  }

  function Move(c: Client, server: Server, a: Action): Client
    requires Enabled(c, server, a)
  {
    match a
    case Ask => DoAsk(c)
    case Answered(i, r, works) => DoAnswered(c, server, i, r, works)
    case Go(to) => DoGo(c, to)
    case Reconnect(readable) => DoReconnect(c, c.conversation.value, readable)
    case Discovered(i, r) => DoDiscovered(c, i, r)
    case StatusRead(i, status, asking, adopted, now) => DoStatus(c, server, i, status, asking, adopted, now)
    case GiveUp(i) => c.(pending := Remove(c.pending, i))
    case Resubscribe => StartSubscription(c, server, c.gate.runId.value)
    case Deliver(i, works, now) => DoDeliver(c, server, i, works, now)
    case Drop(i) => c.(sources := Remove(c.sources, i))
    case Reload => DoReload(c)
  }
}
