/** What an event that passes the gate does to the session it is handed to, and that this holds in every
    session of every schedule.
  */
module ReplayEffects {
  import opened Options
  import opened ChatParts
  import opened Timeline
  import opened TimelineFacts
  import opened StreamInvariants
  import opened StreamTheorems
  import opened StreamEffects
  import opened Replay
  import opened ReplayTheorems
  import opened ReplaySessions

  /** The session's state before and after an event with that payload. */
  ghost predicate PayloadShown(s: State, s1: State, payload: EventBody, now: int) {
    match payload
    case Streamed(event) => s1 == Apply(s, event, now)
    case MessageEnd => AllClosed(s, s1, now) && s1.current == -1
    case RunEnd => AllClosed(s, s1, now) && s1.current == -1
    case RunError => ErrorShown(s, s1, now)
    case InputAccepted(content) =>
      s1 == s.(segments := s1.segments) && s1.segments == s.segments + (if content == "" then [] else [InstructionSeg(content)])
    case Waiting(id) =>
      s1 == s.(segments := s1.segments)
      && (if id.Some? then QuestionShown(s.segments, s1.segments, id.value) else s1.segments == s.segments)
    case Silent => s1 == s
  }

  /** Nothing is running or streaming after the end of a message or of the run. */
  lemma ClosedIsQuiet(s: State, s1: State, now: int)
    requires AllClosed(s, s1, now)
    ensures forall i :: 0 <= i < |s1.segments| ==> QuietSegment(s1.segments[i])
    ensures forall b :: b in s1.blocks ==> !b.streaming
    ensures s1.tasks == SettleTable(s1.tasks)
  {
    forall i | 0 <= i < |s1.segments|
      ensures QuietSegment(s1.segments[i])
    {
      assert SegmentClosed(s.segments[i], s1.segments[i]);
    }
  }

  lemma PayloadIsShown(s: State, payload: EventBody, now: int)
    requires Mirrored(s)
    ensures PayloadShown(s, Affect(s, payload, now), payload, now) && Mirrored(Affect(s, payload, now))
  {
    var steps := EffectOf(payload);
    if steps != [] { StepMirrored(s, steps[0], now); }
    match payload
    case Streamed(event) =>
    case MessageEnd => FinishCloses(s, now);
    case RunEnd => FinishCloses(s, now);
    case RunError => FailureCloses(s, now);
    case InputAccepted(content) => assert s.segments + [] == s.segments;
    case Waiting(id) => if id.Some? { QuestionIsShown(s, id.value, now); }
    case Silent =>
  }

  // ---------------------------------------------------------------- every session

  ghost predicate AllMirrored(d: Desk) {
    forall id: SessionId :: Mirrored(d.Seat(id).state)
  }

  lemma EmptyMirrored()
    ensures Mirrored(EMPTY_STATE)
  {
    assert Numbered([]) == [];
  }

  /** One session changes, and is mirrored. */
  lemma OneMirrored(d: Desk, d1: Desk, id: SessionId)
    requires AllMirrored(d) && Mirrored(d1.Seat(id).state) && forall u: SessionId :: u != id ==> d1.Seat(u) == d.Seat(u)
    ensures AllMirrored(d1)
  {
    forall u: SessionId
      ensures Mirrored(d1.Seat(u).state)
    {
      assert Mirrored(d.Seat(u).state);
    }
  }

  lemma EnsuredMirrored(d: Desk, r: RunId, adopted: seq<Part>, now: int)
    requires AllMirrored(d)
    ensures AllMirrored(d.Ensured(r, adopted, now))
  {
    var d1 := d.Ensured(r, adopted, now);
    LoadMirrored(adopted, now);
    if r !in d.registry {
      OneMirrored(d, d1, d.made);
    } else {
      assert Mirrored(d.Seat(d.registry[r]).state);
      OneMirrored(d, d1, d.registry[r]);
    }
  }

  /** `ensureSession` shows the run's session with what it had, or, where that is still empty or there is
      none, with what the stored message says. */
  lemma EnsuredShowsMessage(d: Desk, r: RunId, adopted: seq<Part>, now: int, streaming: bool)
    ensures var d1 := d.Ensured(r, adopted, now);
            && d1.active.Some?
            && var s1 := d1.Seat(d1.active.value);
               if r in d.registry && (d.Seat(d.registry[r]).state.segments != [] || adopted == []) then s1 == d.Seat(d.registry[r])
               else s1.state == FromParts(adopted, now) && ShownText(Build(s1.state, streaming)) == s1.base == JoinText(adopted)
  {
    FromPartsText(adopted, now);
    BuildText(FromParts(adopted, now), streaming);
  }

  lemma TouchedMirrored(d: Desk, step: Step, now: int)
    requires AllMirrored(d)
    ensures AllMirrored(d.Touched(step, now))
  {
    if d.active.Some? {
      assert Mirrored(d.Seat(d.active.value).state);
      StepMirrored(d.Seat(d.active.value).state, step, now);
      OneMirrored(d, d.Touched(step, now), d.active.value);
    }
  }

  lemma SameBookMirrored(d: Desk, d1: Desk)
    requires AllMirrored(d) && d1.book == d.book
    ensures AllMirrored(d1)
  {
    forall u: SessionId
      ensures Mirrored(d1.Seat(u).state)
    {
      assert Mirrored(d.Seat(u).state) && d1.Seat(u) == d.Seat(u);
    }
  }

  /** The event is handed to one session, which shows it; all others stay as they are. */
  ghost predicate EventShown(d: Desk, d1: Desk, target: Option<SessionId>, payload: EventBody, now: int) {
    && (target.Some? ==> PayloadShown(d.Seat(target.value).state, d1.Seat(target.value).state, payload, now))
    && forall u: SessionId :: Some(u) != target ==> d1.Seat(u) == d.Seat(u)
  }

  lemma ReceivedShows(d: Desk, target: Option<SessionId>, r: RunId, e: LogEvent, now: int)
    requires AllMirrored(d)
    ensures var d1 := d.Received(target, r, e, now); EventShown(d, d1, target, e.payload, now) && AllMirrored(d1)
  {
    var d1 := d.Received(target, r, e, now);
    if target.Some? {
      var s := d.Seat(target.value).state;
      assert Mirrored(s);
      PayloadIsShown(s, e.payload, now);
      assert d1.Seat(target.value).state == Affect(s, e.payload, now);
      OneMirrored(d, d1, target.value);
    } else {
      SameBookMirrored(d, d1);
    }
  }

  /** A delivery: an event of a current stream that passes the gate is shown by the session it reaches;
      any other delivery changes no session. */
  lemma DeliveryIsShown(c: Client, server: Server, i: nat, works: bool, now: int)
    requires AllMirrored(c.desk) && Enabled(c, server, Deliver(i, works, now))
    ensures var s, d1 := c.sources[i], DoDeliver(c, server, i, works, now).desk;
            && AllMirrored(d1)
            && (if Passing(c, server, i) then EventShown(c.desk, d1, Target(c, s), server.Log(s.run)[s.next].payload, now)
                else d1.book == c.desk.book)
  {
    var s := c.sources[i];
    if Passing(c, server, i) {
      var e := server.Log(s.run)[s.next];
      var d1 := c.desk.Received(Target(c, s), s.run, e, now);
      ReceivedShows(c.desk, Target(c, s), s.run, e, now);
      RecordedFields(c, c.gate.Marked(s.run, e), d1, e.payload, Target(c, s).Some?, works);
    } else {
      SameBookMirrored(c.desk, DoDeliver(c, server, i, works, now).desk);
    }
  }

  /** The active session shows an error. */
  ghost predicate ErrorInActive(d: Desk, d1: Desk, now: int) {
    && d.active.Some? && ErrorShown(d.Seat(d.active.value).state, d1.Seat(d.active.value).state, now)
    && forall u: SessionId :: u != d.active.value ==> d1.Seat(u) == d.Seat(u)
  }

  /** The active session shows the question the run waits for, if it waits. */
  ghost predicate QuestionInActive(d: Desk, d1: Desk, asking: Option<(string, Payload)>) {
    && d.active.Some?
    && (forall u: SessionId :: u != d.active.value ==> d1.Seat(u) == d.Seat(u))
    && var s, s1 := d.Seat(d.active.value).state, d1.Seat(d.active.value).state;
       if asking.None? then s1 == s
       else QuestionRestored(s.segments, s1.segments, asking.value.0, asking.value.1) && s1.tasks.toolCalling == TaskRunning
  }

  lemma FailedShows(d: Desk, r: RunId, now: int)
    requires AllMirrored(d) && d.active.Some?
    ensures ErrorInActive(d, d.Touched(Failure, now).Closed(r), now) && AllMirrored(d.Touched(Failure, now).Closed(r))
  {
    var s := d.Seat(d.active.value).state;
    assert Mirrored(s);
    FailureCloses(s, now);
    TouchedMirrored(d, Failure, now);
    SameBookMirrored(d.Touched(Failure, now), d.Touched(Failure, now).Closed(r));
  }

  lemma AskedShows(d: Desk, asking: Option<(string, Payload)>, now: int)
    requires AllMirrored(d) && d.active.Some?
    ensures QuestionInActive(d, d.Asked(asking, now), asking) && AllMirrored(d.Asked(asking, now))
  {
    if asking.Some? {
      QuestionIsRestored(d.Seat(d.active.value).state, asking.value.0, asking.value.1, now);
      TouchedMirrored(d, Rehydrate(asking.value.0, asking.value.1), now);
    }
  }

  /** The server's answer about a run: a live one gets its session, with the question it waits for; a failed
      one shows the error; one that is over, or an outdated answer, changes no session. */
  ghost predicate StatusShown(c: Client, d1: Desk, p: Pending, status: RunStatus, asking: Option<(string, Payload)>,
                              adopted: seq<Part>, now: int)
    requires p.ReadingStatus?
  {
    if !CurrentCall(c, p) || status == Over then d1.book == c.desk.book
    else if status == Failed then ErrorInActive(c.desk.Ensured(p.run, adopted, now), d1, now)
    else QuestionInActive(c.desk.Ensured(p.run, adopted, now), d1, asking)
  }

  lemma StatusIsShown(c: Client, server: Server, a: Action)
    requires AllMirrored(c.desk) && a.StatusRead? && Enabled(c, server, a)
    ensures StatusShown(c, Move(c, server, a).desk, c.pending[a.call], a.status, a.asking, a.adopted, a.now)
    ensures AllMirrored(Move(c, server, a).desk)
  {
    var p, d1 := c.pending[a.call], Move(c, server, a).desk;
    if !CurrentCall(c, p) || a.status == Over {
      SameBookMirrored(c.desk, d1);
    } else {
      EnsuredMirrored(c.desk, p.run, a.adopted, a.now);
      var d := c.desk.Ensured(p.run, a.adopted, a.now);
      if a.status == Failed { FailedShows(d, p.run, a.now); } else { AskedShows(d, a.asking, a.now); }
    }
  }

  lemma MoveMirrored(c: Client, server: Server, a: Action)
    requires AllMirrored(c.desk) && Enabled(c, server, a)
    ensures AllMirrored(Move(c, server, a).desk)
  {
    EmptyMirrored();
    match a
    case Ask => OneMirrored(c.desk, DoAsk(c).desk, c.desk.made);
    case Answered(i, r, works) =>
      AnsweredFields(c, server, i, r, works);
      assert Mirrored(c.desk.Seat(c.pending[i].session).state);
      OneMirrored(c.desk, DoAnswered(c, server, i, r, works).desk, c.pending[i].session);
    case StatusRead(_, _, _, _, _) => StatusIsShown(c, server, a);
    case Deliver(i, works, now) => DeliveryIsShown(c, server, i, works, now);
    case Reload =>
    case _ => SameBookMirrored(c.desk, Move(c, server, a).desk);
  }

  /** Any schedule at all, safe or not. */
  predicate PossibleRun(c: Client, server: Server, actions: seq<Action>)
    decreases |actions|
  {
    actions == [] || (Enabled(c, server, actions[0]) && PossibleRun(Move(c, server, actions[0]), server, actions[1..]))
  }

  function Reached(c: Client, server: Server, actions: seq<Action>): Client
    requires PossibleRun(c, server, actions)
    decreases |actions|
  {
    if actions == [] then c else Reached(Move(c, server, actions[0]), server, actions[1..])
  }

  lemma {:induction false} RunMirrored(c: Client, server: Server, actions: seq<Action>)
    requires AllMirrored(c.desk) && PossibleRun(c, server, actions)
    ensures AllMirrored(Reached(c, server, actions).desk)
    decreases |actions|
  {
    if actions != [] {
      MoveMirrored(c, server, actions[0]);
      RunMirrored(Move(c, server, actions[0]), server, actions[1..]);
    }
  }

  /** After any schedule, an event that passes is shown by the session it reaches: a streamed event by the
      reducer, the end of a message or of the run by closing everything that is open, an error, an accepted
      input, a question to the user each in its way. */
  lemma {:induction false} PassedEventIsShown(server: Server, actions: seq<Action>, i: nat, works: bool, now: int)
    requires PossibleRun(NEW_CLIENT, server, actions)
    requires Enabled(Reached(NEW_CLIENT, server, actions), server, Deliver(i, works, now))
    requires Passing(Reached(NEW_CLIENT, server, actions), server, i)
    ensures var c := Reached(NEW_CLIENT, server, actions);
            var s := c.sources[i];
            EventShown(c.desk, DoDeliver(c, server, i, works, now).desk, Target(c, s), server.Log(s.run)[s.next].payload, now)
  {
    EmptyMirrored();
    RunMirrored(NEW_CLIENT, server, actions);
    DeliveryIsShown(Reached(NEW_CLIENT, server, actions), server, i, works, now);
  }

  // ---------------------------------------------------------------- what is outdated

  /** The generation of a waiting request of a reconnect. */
  function Generation(p: Pending): nat {
    match p
    case Starting(_, _) => 0
    case Discovering(generation, _) => generation
    case ReadingStatus(generation, _, _) => generation
  }

  predicate SourceStamped(n: Counters, s: EventSource) {
    s.stamp <= (if s.provided.Some? then n.epoch else n.subscriptions)
  }

  /** Nothing is newer than the counters. */
  predicate Stamped(c: Client) {
    && (forall s :: s in c.sources ==> SourceStamped(c.counters, s))
    && (forall p :: p in c.pending ==> Generation(p) <= c.counters.reconnects)
  }

  predicate NoOlder(n: Counters, m: Counters) {
    n.epoch <= m.epoch && n.reconnects <= m.reconnects && n.subscriptions <= m.subscriptions
  }

  lemma RestIsPart<T>(items: seq<T>, i: nat)
    requires i < |items|
    ensures forall x :: x in Remove(items, i) ==> x in items
  {
  }

  lemma ReceiveStamps(c: Client, r: RunId, e: LogEvent, provided: Option<SessionId>, works: bool, now: int)
    ensures var c1 := Receive(c, r, e, provided, works, now);
            c1.counters == c.counters && c1.sources == c.sources && c1.pending == c.pending
  {
    if c.gate.Passes(r, e) { ReceivedHistory(c, r, e, provided, works, now); }
  }

  lemma StatusStamps(c: Client, server: Server, a: Action)
    requires Stamped(c) && a.StatusRead? && Enabled(c, server, a)
    ensures Stamped(Move(c, server, a)) && NoOlder(c.counters, Move(c, server, a).counters)
  {
    RestIsPart(c.pending, a.call);
  }

  lemma DeliverStamps(c: Client, server: Server, i: nat, works: bool, now: int)
    requires Stamped(c) && Enabled(c, server, Deliver(i, works, now))
    ensures Stamped(DoDeliver(c, server, i, works, now)) && NoOlder(c.counters, DoDeliver(c, server, i, works, now).counters)
  {
    RestIsPart(c.sources, i);
    var s := c.sources[i];
    ReceiveStamps(c, s.run, server.Log(s.run)[s.next], s.provided, works, now);
    assert s in c.sources;
  }

  /** Counters only grow in a page, and what is opened is stamped with them. */
  lemma MoveStamps(c: Client, server: Server, a: Action)
    requires Stamped(c) && Enabled(c, server, a)
    ensures Stamped(Move(c, server, a)) && (a != Reload ==> NoOlder(c.counters, Move(c, server, a).counters))
  {
    match a
    case Answered(i, r, works) =>
      RestIsPart(c.pending, i);
      AnsweredFields(c, server, i, r, works);
    case Discovered(i, _) => RestIsPart(c.pending, i);
    case StatusRead(_, _, _, _, _) => StatusStamps(c, server, a);
    case GiveUp(i) => RestIsPart(c.pending, i);
    case Drop(i) => RestIsPart(c.sources, i);
    case Deliver(i, works, now) => DeliverStamps(c, server, i, works, now);
    case _ =>
  }

  lemma {:induction false} RunStamps(c: Client, server: Server, actions: seq<Action>)
    requires Stamped(c) && PossibleRun(c, server, actions)
    ensures Stamped(Reached(c, server, actions))
    ensures Reload !in actions ==> NoOlder(c.counters, Reached(c, server, actions).counters)
    decreases |actions|
  {
    if actions != [] {
      MoveStamps(c, server, actions[0]);
      RunStamps(Move(c, server, actions[0]), server, actions[1..]);
    }
  }

  /** The call is waiting for an answer that will be ignored. */
  predicate IgnoredCall(c: Client, p: Pending) {
    p.Starting? || c.counters.reconnects != Generation(p)
  }

  /** Leaving the run's conversation outdates every open stream and every waiting request of a reconnect,
      also for when the user comes back, whatever happens in this page meanwhile. */
  lemma LeavingOutdates(server: Server, before: seq<Action>, to: Option<Conversation>, after: seq<Action>)
    requires PossibleRun(NEW_CLIENT, server, before)
    requires var c := Reached(NEW_CLIENT, server, before); c.runConversation.Some? && c.runConversation != to
    requires PossibleRun(DoGo(Reached(NEW_CLIENT, server, before), to), server, after) && Reload !in after
    ensures var c := Reached(NEW_CLIENT, server, before);
            var c1 := Reached(DoGo(c, to), server, after);
            && (forall s :: s in c.sources ==> !Current(c1, s))
            && (forall p :: p in c.pending ==> IgnoredCall(c1, p))
  {
    RunStamps(NEW_CLIENT, server, before);
    var c := Reached(NEW_CLIENT, server, before);
    assert Stamped(DoGo(c, to));
    RunStamps(DoGo(c, to), server, after);
  }

  /** Asking for a new run silences every open stream, and the session it opens is empty and active. */
  lemma AskingSilences(server: Server, before: seq<Action>)
    requires PossibleRun(NEW_CLIENT, server, before)
    ensures var c := Reached(NEW_CLIENT, server, before);
            var c1 := DoAsk(c);
            && (forall s :: s in c1.sources ==> !Current(c1, s))
            && c1.desk.active.Some? && c1.desk.Seat(c1.desk.active.value).state == EMPTY_STATE && c1.desk.ActiveRun() == None
            && (forall u: SessionId :: Some(u) != c1.desk.active ==> c1.desk.Seat(u) == c.desk.Seat(u))
            && c1.desk.registry == c.desk.registry && c1.snapshots == c.snapshots
  {
    RunStamps(NEW_CLIENT, server, before);
  }

  // ---------------------------------------------------------------- what is stored

  predicate SameSnapshot(c: Client, c1: Client, k: Conversation) {
    (k in c1.snapshots <==> k in c.snapshots) && (k in c.snapshots ==> c1.snapshots[k] == c.snapshots[k])
  }

  /** A reconnect never takes up the run of another conversation: it asks about the tracked run if that is
      this conversation's, or about the one in its snapshot, and else about no run in particular. */
  lemma ReconnectStaysHome(c: Client, readable: bool)
    requires c.conversation.Some?
    ensures var k, c1 := c.conversation.value, DoReconnect(c, c.conversation.value, readable);
            && |c.pending| <= |c1.pending| <= |c.pending| + 1 && c.pending <= c1.pending
            && (|c1.pending| > |c.pending| ==>
                  match c1.pending[|c.pending|]
                  case Starting(_, _) => false
                  case Discovering(generation, conversation) =>
                    conversation == k && generation == c1.counters.reconnects && c1.gate == c.gate
                    && !(c.runConversation == Some(k) && c.gate.runId.Some?) && !(readable && k in c.snapshots)
                  case ReadingStatus(generation, conversation, r) =>
                    conversation == k && generation == c1.counters.reconnects && c1.gate.runId == Some(r)
                    && (if c.runConversation == Some(k) && c.gate.runId.Some? then c.gate.runId == Some(r) && c1.gate == c.gate
                        else k in c.snapshots && c.snapshots[k].run == r && c1.gate.last == c.snapshots[k].last))
  {
  }

  /** A delivery stores where the tracked run stands, if storage works: for every event that passes, save a
      streamed one that no session hears; the end of the run clears the snapshot instead. */
  lemma DeliveryStores(c: Client, server: Server, i: nat, works: bool, now: int)
    requires Enabled(c, server, Deliver(i, works, now)) && Passing(c, server, i)
    ensures var s, c1 := c.sources[i], DoDeliver(c, server, i, works, now);
            var e := server.Log(s.run)[s.next];
            && (forall k :: Some(k) != c.runConversation ==> SameSnapshot(c, c1, k))
            && (c.runConversation.Some? ==>
                  var k := c.runConversation.value;
                  if e.payload.RunEnd? then k !in c1.snapshots
                  else if works && (Target(c, s).Some? || !e.payload.Streamed?) then
                    k in c1.snapshots && c1.snapshots[k].run == s.run && c1.snapshots[k].last >= e.sequence
                  else SameSnapshot(c, c1, k))
  {
  }
}
