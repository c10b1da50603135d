/** Concrete schedules from a new client: a message split over two sessions, a lost snapshot, and a
    stream that outlives its run.
  */
module ReplaySchedules {
  import opened Options
  import opened ChatParts
  import opened Timeline
  import opened Replay
  import opened ReplayTheorems
  import opened ReplayTracking
  import opened ReplaySessions
  import opened ReplayTidy
  import opened ReplayWhole

  const FIRST := LogEvent(1, Streamed(ContentDelta("a")))
  const SECOND := LogEvent(2, Streamed(ContentDelta("b")))
  const TWO_EVENTS := Server(map["r" := [FIRST, SECOND]], map["r" := "k"])
  const ONLY_END := Server(map["r" := [LogEvent(1, RunEnd)]], map["r" := "k"])

  lemma LogsAscend()
    ensures WellFormed(TWO_EVENTS) && WellFormed(ONLY_END)
  {
  }

  /** A client shows conversation `k` and asks for a run in it. */
  const ASKING := Client(Some("k"), None, CLOSED_GATE, Counters(1, 0, 0),
                         Desk(Some(0), map[], map[0 := NEW_SESSION], 1, map[], map[], map[], {}),
                         map[], [], [Starting(1, 0)])

  const ASKED := [Go(Some("k")), Ask]

  /** A careful action that leads from one client to another, and a careful run that does. */
  predicate Leads(c: Client, server: Server, a: Action, c1: Client) {
    Enabled(c, server, a) && Safe(c, server, a) && Orderly(c, server, a) && Tidy(c, server, a) && Move(c, server, a) == c1
  }

  predicate Reaches(c: Client, server: Server, actions: seq<Action>, c1: Client) {
    TidyRun(c, server, actions) && SafeRun(c, server, actions) && Outcome(c, server, actions) == c1
  }

  lemma Prepend(c: Client, server: Server, a: Action, c1: Client, rest: seq<Action>, c2: Client)
    requires Leads(c, server, a, c1) && Reaches(c1, server, rest, c2)
    ensures Reaches(c, server, [a] + rest, c2)
  {
    assert ([a] + rest)[0] == a && ([a] + rest)[1..] == rest;
  }

  lemma LastStep(c: Client, server: Server, a: Action, c1: Client)
    requires Leads(c, server, a, c1)
    ensures Reaches(c, server, [a], c1)
  {
    assert [a] == [a] + [];
    assert Reaches(c1, server, [], c1);
    Prepend(c, server, a, c1, [], c1);
  }

  lemma AskedFirst(server: Server, rest: seq<Action>, c: Client)
    requires Reaches(ASKING, server, rest, c)
    ensures Reaches(NEW_CLIENT, server, ASKED + rest, c)
  {
    var shown := DoGo(NEW_CLIENT, Some("k"));
    assert Leads(shown, server, Ask, ASKING) && Leads(NEW_CLIENT, server, Go(Some("k")), shown);
    Prepend(shown, server, Ask, ASKING, rest, c);
    Prepend(NEW_CLIENT, server, Go(Some("k")), shown, [Ask] + rest, c);
    assert ASKED + rest == [Go(Some("k"))] + ([Ask] + rest);
  }

  /** A careful run of three or four actions. */
  lemma ThreeSteps(server: Server, c0: Client, a0: Action, c1: Client, a1: Action, c2: Client, a2: Action, c3: Client)
    requires Leads(c0, server, a0, c1) && Leads(c1, server, a1, c2) && Leads(c2, server, a2, c3)
    ensures Reaches(c0, server, [a0, a1, a2], c3)
  {
    LastStep(c2, server, a2, c3);
    Prepend(c1, server, a1, c2, [a2], c3);
    Prepend(c0, server, a0, c1, [a1] + [a2], c3);
    assert [a0, a1, a2] == [a0] + ([a1] + [a2]);
  }

  lemma FourSteps(server: Server, c0: Client, a0: Action, c1: Client, a1: Action, c2: Client, a2: Action, c3: Client,
                  a3: Action, c4: Client)
    requires Leads(c0, server, a0, c1) && Leads(c1, server, a1, c2) && Leads(c2, server, a2, c3) && Leads(c3, server, a3, c4)
    ensures Reaches(c0, server, [a0, a1, a2, a3], c4)
  {
    ThreeSteps(server, c1, a1, c2, a2, c3, a3, c4);
    Prepend(c0, server, a0, c1, [a1, a2, a3], c4);
    assert [a0, a1, a2, a3] == [a0] + [a1, a2, a3];
  }

  lemma ReachedIsSeated(server: Server, actions: seq<Action>, c: Client)
    requires WellFormed(server) && Reaches(NEW_CLIENT, server, actions, c)
    ensures Steady(c, server) && Seated(c, server)
  {
    NewClientIsSeated(server);
    TidyRunContinues(NEW_CLIENT, server, actions);
  }

  lemma FreshFits(server: Server, d: Desk)
    requires WellFormed(server) && d.Passed("r") == []
    ensures Fits(Gate(Some("r"), 0, {}), d, server, "r") && After(server.Log("r"), 0) == 0
  {
    LogAscends(server, "r");
    AfterSplits(server.Log("r"), 0);
    FreshGateFits(d, server, "r", 0);
  }

  // ---------------------------------------------------------------- two sessions

  const NAMED := NEW_SESSION.(run := Some("r"))

  /** The window gets the focus before the start is answered. */
  const FOCUS := [Reconnect(true), Discovered(1, "r"), Answered(0, "r", true), StatusRead(0, Live, None, [], 0)]

  const MEETING := Client(Some("k"), Some("k"), Gate(Some("r"), 0, {}), Counters(1, 1, 1),
                          Desk(Some(1), map["r" := 1], map[0 := NAMED, 1 := NAMED], 2, map[], map[], map[], {}),
                          map["k" := Snapshot("r", 0)],
                          [EventSource("r", Some(0), 1, 0), EventSource("r", None, 1, 0)], [])

  const SEARCHING := ASKING.(counters := Counters(1, 1, 0), pending := [Starting(1, 0), Discovering(1, "k")])

  const FOUND := SEARCHING.(gate := Gate(Some("r"), 0, {}), runConversation := Some("k"),
                            pending := [Starting(1, 0), ReadingStatus(1, "k", "r")])

  const BOTH := FOUND.(desk := ASKING.desk.(book := map[0 := NAMED]), snapshots := map["k" := Snapshot("r", 0)],
                       sources := [EventSource("r", Some(0), 1, 0)], pending := [ReadingStatus(1, "k", "r")])

  lemma FocusIsFound()
    ensures Leads(ASKING, TWO_EVENTS, FOCUS[0], SEARCHING) && Leads(SEARCHING, TWO_EVENTS, FOCUS[1], FOUND)
  {
    FreshFits(TWO_EVENTS, ASKING.desk);
    assert Remove(SEARCHING.pending, 1) == [Starting(1, 0)];
  }

  lemma StartIsAnswered()
    ensures Leads(FOUND, TWO_EVENTS, FOCUS[2], BOTH)
  {
    FreshFits(TWO_EVENTS, FOUND.desk);
    assert Remove(FOUND.pending, 0) == [ReadingStatus(1, "k", "r")];
  }

  lemma StatusIsRead()
    ensures Leads(BOTH, TWO_EVENTS, FOCUS[3], MEETING)
  {
    FreshFits(TWO_EVENTS, BOTH.desk);
    assert Remove(BOTH.pending, 0) == [] && FromParts([], 0) == EMPTY_STATE;
  }

  /** The original stream and the subscription of `c` meet, and session `id` ends with `got`. */
  ghost predicate Splits(c: Client, server: Server, id: SessionId, got: seq<LogEvent>) {
    WellFormed(server) && Steady(c, server) && Seated(c, server) && Meeting(c, server, 0, 1)
    && Met(c, server, 0, 1, true, 0).desk.Seat(id).got == got
  }

  predicate TwoSessions(c: Client, server: Server) {
    && Meeting(c, server, 0, 1) && c.sources[0].provided == Some(0) && c.desk.active == Some(1)
    && c.desk.Seat(0).got == [] && server.Log(c.sources[0].run)[c.sources[0].next + 1] == SECOND
  }

  lemma MeetingHasTwo()
    ensures TwoSessions(MEETING, TWO_EVENTS)
  {
  }

  lemma TwoSessionsSplit(c: Client, server: Server)
    requires WellFormed(server) && Steady(c, server) && Seated(c, server) && TwoSessions(c, server)
    ensures Splits(c, server, 0, [SECOND])
  {
    MessageIsSplit(c, server, 0, 1, true, 0);
    assert [] + [SECOND] == [SECOND];
  }

  /** A focus event reconnects while a start is under way: the run gets a second session, the subscription
      delivers its first event there, and the message of the start shows only the second. */
  lemma FocusDuringStartSplits()
    ensures Reaches(NEW_CLIENT, TWO_EVENTS, ASKED + FOCUS, MEETING) && Splits(MEETING, TWO_EVENTS, 0, [SECOND])
  {
    LogsAscend();
    FocusLeadsToMeeting(TWO_EVENTS);
    MeetingHasTwo();
    FocusReaches(TWO_EVENTS, MEETING);
  }

  lemma FocusReaches(server: Server, c: Client)
    requires WellFormed(server) && Reaches(ASKING, server, FOCUS, c) && TwoSessions(c, server)
    ensures Reaches(NEW_CLIENT, server, ASKED + FOCUS, c) && Splits(c, server, 0, [SECOND])
  {
    AskedFirst(server, FOCUS, c);
    ReachedIsSeated(server, ASKED + FOCUS, c);
    TwoSessionsSplit(c, server);
  }

  lemma FocusLeadsToMeeting(server: Server)
    requires server == TWO_EVENTS
    ensures Reaches(ASKING, server, FOCUS, MEETING)
  {
    FocusIsFound();
    StartIsAnswered();
    StatusIsRead();
    FourSteps(server, ASKING, FOCUS[0], SEARCHING, FOCUS[1], FOUND, FOCUS[2], BOTH, FOCUS[3], MEETING);
  }

  // ---------------------------------------------------------------- a lost snapshot

  const STREAMING := Client(Some("k"), Some("k"), Gate(Some("r"), 0, {}), Counters(1, 0, 0),
                            Desk(Some(0), map[], map[0 := NAMED], 1, map[], map[], map[], {}),
                            map[], [EventSource("r", Some(0), 1, 0)], [])

  const ANSWER := Answered(0, "r", false)

  lemma AnsweredStreams(server: Server)
    requires WellFormed(server) && server.home == map["r" := "k"]
    ensures Leads(ASKING, server, ANSWER, STREAMING)
  {
    FreshFits(server, ASKING.desk);
    assert Remove(ASKING.pending, 0) == [];
  }

  /** The first event is delivered, and the user leaves the conversation and comes back. */
  function Delivered(): Client {
    Receive(STREAMING, "r", FIRST, Some(0), false, 0).(sources := [EventSource("r", Some(0), 1, 1)])
  }

  function BackAgain(): Client {
    DoGo(DoGo(Delivered(), None), Some("k"))
  }

  lemma FirstIsDelivered()
    ensures Leads(STREAMING, TWO_EVENTS, Deliver(0, false, 0), Delivered())
  {
    assert TWO_EVENTS.Log("r") == [FIRST, SECOND];
  }

  lemma DeliveredFields()
    ensures var c := Delivered();
            && c.desk.passed == map["r" := [FIRST]] && c.runConversation == Some("k") && c.snapshots == map[]
  {
    assert STREAMING.gate.Passes("r", FIRST);
    ReceivedHistory(STREAMING, "r", FIRST, Some(0), false, 0);
    assert [] + [FIRST] == [FIRST];
  }

  /** Without storage this leaves nothing to resume from: a client that `LostSnapshotRepeats` is about. */
  lemma LeavingWithoutStorage()
    ensures Reaches(NEW_CLIENT, TWO_EVENTS, ASKED + [ANSWER, Deliver(0, false, 0), Go(None), Go(Some("k"))], BackAgain())
    ensures var c := BackAgain();
            && Good(c, TWO_EVENTS) && c.conversation == Some("k") && c.gate.runId == None && c.desk.ActiveRun() == None
            && c.snapshots == map[] && c.desk.Passed("r") == [FIRST]
  {
    AnsweredStreams(TWO_EVENTS);
    FirstIsDelivered();
    DeliveredFields();
    LeftAndBack(TWO_EVENTS, Delivered(), BackAgain());
  }

  lemma LeftAndBack(server: Server, c: Client, c2: Client)
    requires WellFormed(server) && Leads(ASKING, server, ANSWER, STREAMING)
    requires Leads(STREAMING, server, Deliver(0, false, 0), c) && c2 == DoGo(DoGo(c, None), Some("k"))
    requires c.runConversation == Some("k")
    ensures Reaches(NEW_CLIENT, server, ASKED + [ANSWER, Deliver(0, false, 0), Go(None), Go(Some("k"))], c2)
    ensures Good(c2, server) && c2.conversation == Some("k") && c2.gate.runId == None && c2.desk.ActiveRun() == None
    ensures c2.snapshots == c.snapshots && c2.desk.Passed("r") == c.desk.Passed("r")
  {
    var c1 := DoGo(c, None);
    FourSteps(server, ASKING, ANSWER, STREAMING, Deliver(0, false, 0), c, Go(None), c1, Go(Some("k")), c2);
    AskedFirst(server, [ANSWER, Deliver(0, false, 0), Go(None), Go(Some("k"))], c2);
    ReachedIsSeated(server, ASKED + [ANSWER, Deliver(0, false, 0), Go(None), Go(Some("k"))], c2);
  }

  // ---------------------------------------------------------------- a late stream

  const SUBSCRIBED := STREAMING.(counters := Counters(1, 0, 1),
                                 sources := [EventSource("r", Some(0), 1, 0), EventSource("r", None, 1, 0)])

  /** A subscription beside the original stream delivers the run's end first. */
  function Outrun(): Client {
    Receive(SUBSCRIBED, "r", LogEvent(1, RunEnd), None, false, 0)
      .(sources := [EventSource("r", Some(0), 1, 0), EventSource("r", None, 1, 1)])
  }

  lemma EndIsDelivered()
    ensures Leads(SUBSCRIBED, ONLY_END, Deliver(1, false, 0), Outrun())
  {
    assert ONLY_END.Log("r") == [LogEvent(1, RunEnd)];
  }

  lemma SubscriptionOpens()
    ensures Leads(STREAMING, ONLY_END, Resubscribe, SUBSCRIBED)
  {
    FreshFits(ONLY_END, STREAMING.desk);
  }

  lemma OutrunFields()
    ensures var c := Outrun();
            && "r" in c.desk.ended && c.gate.runId == None && |c.desk.Passed("r")| == 1
            && |c.sources| == 2 && c.sources[0] == EventSource("r", Some(0), 1, 0) && Current(c, c.sources[0])
  {
    assert SUBSCRIBED.gate.Passes("r", LogEvent(1, RunEnd));
    ReceivedHistory(SUBSCRIBED, "r", LogEvent(1, RunEnd), None, false, 0);
  }

  /** The original stream is then a late one that lags behind: a client that `LateStreamRepeats` is about. */
  lemma SubscriptionOutrunsOriginal()
    ensures Reaches(NEW_CLIENT, ONLY_END, ASKED + [ANSWER, Resubscribe, Deliver(1, false, 0)], Outrun())
    ensures var c := Outrun();
            && Good(c, ONLY_END) && |c.sources| == 2 && Current(c, c.sources[0])
            && c.sources[0].run == "r" && "r" in c.desk.ended && c.gate.runId == None
            && c.sources[0].next < |c.desk.Passed("r")| == |ONLY_END.Log("r")|
  {
    AnsweredStreams(ONLY_END);
    SubscriptionOpens();
    EndIsDelivered();
    OutrunFields();
    OutrunReached(ONLY_END, Outrun());
  }

  lemma OutrunReached(server: Server, c: Client)
    requires WellFormed(server) && Leads(ASKING, server, ANSWER, STREAMING)
    requires Leads(STREAMING, server, Resubscribe, SUBSCRIBED) && Leads(SUBSCRIBED, server, Deliver(1, false, 0), c)
    ensures Reaches(NEW_CLIENT, server, ASKED + [ANSWER, Resubscribe, Deliver(1, false, 0)], c) && Steady(c, server)
  {
    ThreeSteps(server, ASKING, ANSWER, STREAMING, Resubscribe, SUBSCRIBED, Deliver(1, false, 0), c);
    AskedFirst(server, [ANSWER, Resubscribe, Deliver(1, false, 0)], c);
    ReachedIsSeated(server, ASKED + [ANSWER, Resubscribe, Deliver(1, false, 0)], c);
  }
}
