/** Exactly-once replay: whatever is dropped, retried, superseded, overlapped, left, re-entered or
    reloaded, the gate passes a run's log once and in order, and this is lost exactly by an unsafe action.

    These are statements about the gate alone; `ReplaySessions` says which session gets the events.
  */
module ReplayTheorems {
  import opened Options
  import opened ChatParts
  import opened Timeline
  import opened Replay

  // ---------------------------------------------------------------- positions in a log

  lemma {:induction false} AfterSplits(log: seq<LogEvent>, q: nat)
    requires Ascending(log)
    ensures forall i :: 0 <= i < After(log, q) ==> log[i].sequence <= q
    ensures forall i :: After(log, q) <= i < |log| ==> log[i].sequence > q
  {
    if log != [] && log[0].sequence <= q {
      assert Ascending(log[1..]);
      AfterSplits(log[1..], q);
      forall i | 0 <= i < |log|
        ensures (i < After(log, q) ==> log[i].sequence <= q) && (After(log, q) <= i ==> log[i].sequence > q)
      {
        if i > 0 { assert log[i] == log[1..][i - 1]; }
      }
    }
  }

  lemma {:induction false} AfterExactly(log: seq<LogEvent>, n: nat)
    requires Ascending(log) && n < |log|
    ensures After(log, log[n].sequence) == n + 1
  {
    if n > 0 {
      assert Ascending(log[1..]);
      AfterExactly(log[1..], n - 1);
      assert log[0].sequence < log[n].sequence;
    } else {
      AfterSplits(log, log[0].sequence);
    }
  }

  lemma LogAscends(server: Server, r: RunId)
    requires WellFormed(server)
    ensures Ascending(server.Log(r))
  {
  }

  // ---------------------------------------------------------------- the invariant

  /** What passed of a run is a prefix of its log: nothing lost, repeated or reordered. */
  predicate Exact(d: Desk, server: Server, r: RunId) {
    d.Passed(r) <= server.Log(r)
  }

  ghost predicate AllExact(d: Desk, server: Server) {
    forall r: RunId :: Exact(d, server, r)
  }

  /** The gate lets through exactly the events of the run that did not pass yet. */
  predicate Fits(g: Gate, d: Desk, server: Server, r: RunId) {
    var log := server.Log(r);
    forall i :: 0 <= i < |log| ==> (g.Passes(r, log[i]) <==> i >= |d.Passed(r)|)
  }

  /** A stream opened after `q` continues exactly behind what passed. */
  predicate InPlace(d: Desk, server: Server, r: RunId, q: nat) {
    After(server.Log(r), q) == |d.Passed(r)|
  }

  predicate GateOk(c: Client, server: Server) {
    c.gate.runId.Some? ==> Fits(c.gate, c.desk, server, c.gate.runId.value)
  }

  /** No stream is ahead of the gate, and none is newer than the counters. */
  predicate SourceOk(c: Client, s: EventSource) {
    && s.next <= |c.desk.Passed(s.run)|
    && s.stamp <= (if s.provided.Some? then c.counters.epoch else c.counters.subscriptions)
  }

  predicate SourcesOk(c: Client) {
    forall s :: s in c.sources ==> SourceOk(c, s)
  }

  ghost predicate Good(c: Client, server: Server) {
    AllExact(c.desk, server) && GateOk(c, server) && SourcesOk(c)
  }

  // ---------------------------------------------------------------- safe actions

  /** A run may be resumed at `q` if its session is the active one anyway, or if from `q` the gate lets
      through exactly what did not pass yet. */
  predicate SafeResume(c: Client, server: Server, r: RunId, q: nat) {
    c.desk.ActiveRun() == Some(r) || Fits(c.gate.Track(r).(last := q), c.desk, server, r)
  }

  /** The discovery is of the latest reconnect, and its conversation is still shown. */
  predicate CurrentDiscovery(c: Client, i: nat)
    requires i < |c.pending| && c.pending[i].Discovering?
  {
    c.counters.reconnects == c.pending[i].generation && c.conversation == Some(c.pending[i].conversation)
  }

  /** A start is answered with the tracked run or with one of which nothing passed; runs are resumed where
      the gate stands; and a current stream of a run that is not tracked does not lag behind. */
  predicate Safe(c: Client, server: Server, a: Action)
    requires Enabled(c, server, a)
  {
    match a
    case Answered(_, r, _) => c.gate.runId == Some(r) || c.desk.Passed(r) == []
    case Reconnect(readable) =>
      var stored := Stored(c, c.conversation.value, readable);
      stored.Some? ==> SafeResume(c, server, stored.value.run, stored.value.last)
    case Discovered(i, r) =>
      CurrentDiscovery(c, i) ==> SafeResume(c, server, r, 0)
    case Deliver(i, _, _) =>
      var s := c.sources[i];
      Current(c, s) ==> c.gate.runId == Some(s.run) || s.next == |c.desk.Passed(s.run)|
    case _ => true
  }

  // ---------------------------------------------------------------- the gate

  /** The gate passes exactly the events from the next one on when it stands behind what passed. */
  lemma FreshGateFits(d: Desk, server: Server, r: RunId, q: nat)
    requires WellFormed(server) && Exact(d, server, r)
    ensures Fits(Gate(Some(r), q, {}), d, server, r) <==> InPlace(d, server, r, q)
  {
    var log, g, n := server.Log(r), Gate(Some(r), q, {}), |d.Passed(r)|;
    LogAscends(server, r);
    AfterSplits(log, q);
    var k := After(log, q);
    assert forall i :: 0 <= i < |log| ==> (g.Passes(r, log[i]) <==> i >= k);
    if Fits(g, d, server, r) {
      assert k < |log| ==> g.Passes(r, log[k]);
      assert n < |log| ==> g.Passes(r, log[n]);
    }
  }

  /** A stream that is opened behind the gate is not ahead of it. */
  lemma GateBehind(g: Gate, d: Desk, server: Server, r: RunId)
    requires WellFormed(server) && Exact(d, server, r) && g.runId == Some(r) && Fits(g, d, server, r)
    ensures After(server.Log(r), g.last) <= |d.Passed(r)|
  {
    var log, n := server.Log(r), |d.Passed(r)|;
    LogAscends(server, r);
    AfterSplits(log, g.last);
    assert n < |log| ==> g.Passes(r, log[n]);
  }

  /** The gate after the next event stands behind it. */
  lemma MarkedFits(g: Gate, d: Desk, d1: Desk, server: Server, r: RunId)
    requires WellFormed(server) && g.runId == Some(r) && Fits(g, d, server, r)
    requires |d.Passed(r)| < |server.Log(r)| && |d1.Passed(r)| == |d.Passed(r)| + 1
    ensures Fits(g.Marked(r, server.Log(r)[|d.Passed(r)|]), d1, server, r)
    ensures g.Marked(r, server.Log(r)[|d.Passed(r)|]).last == server.Log(r)[|d.Passed(r)|].sequence
  {
    var log, n := server.Log(r), |d.Passed(r)|;
    LogAscends(server, r);
    var g1 := g.Marked(r, log[n]);
    assert g.Passes(r, log[n]);
    forall i | 0 <= i < |log|
      ensures g1.Passes(r, log[i]) <==> i >= n + 1
    {
      assert g.Passes(r, log[i]) <==> i >= n;
      assert i < n ==> log[i].sequence < log[n].sequence;
      assert n < i ==> log[n].sequence < log[i].sequence;
    }
  }

  /** An event that passed does not pass again while its run is tracked, whatever its sequence. */
  lemma PassedStaysOut(g: Gate, r: RunId, e: LogEvent, later: seq<LogEvent>)
    requires g.Passes(r, e)
    ensures !AllMarked(g.Marked(r, e), r, later).Passes(r, e)
  {
    KeysStay(g.Marked(r, e), r, e, later);
  }

  /** The gate after the run's events, one after the other. */
  function AllMarked(g: Gate, r: RunId, events: seq<LogEvent>): Gate {
    if events == [] then g else AllMarked(g, r, events[..|events| - 1]).Marked(r, events[|events| - 1])
  }

  lemma {:induction false} KeysStay(g: Gate, r: RunId, e: LogEvent, later: seq<LogEvent>)
    requires g.runId == Some(r) && (r, e.sequence) in g.applied
    ensures AllMarked(g, r, later).runId == Some(r) && (r, e.sequence) in AllMarked(g, r, later).applied
  {
    if later != [] { KeysStay(g, r, e, later[..|later| - 1]); }
  }

  // ---------------------------------------------------------------- actions keep the invariant

  lemma SameHistory(d: Desk, d1: Desk, server: Server)
    requires AllExact(d, server) && d1.passed == d.passed
    ensures AllExact(d1, server)
  {
    forall r: RunId
      ensures Exact(d1, server, r)
    {
      assert Exact(d, server, r) && d1.Passed(r) == d.Passed(r);
    }
  }

  lemma EnsuredHistory(d: Desk, r: RunId, adopted: seq<Part>, now: int)
    ensures var d1 := d.Ensured(r, adopted, now);
            d1.passed == d.passed && d1.before == d.before && d1.ended == d.ended && d1.served == d.served
  {
  }

  /** Streams stay right while what passed is the same. */
  lemma SourcesKeep(c: Client, c1: Client)
    requires SourcesOk(c) && (forall s :: s in c1.sources ==> s in c.sources) && c1.desk.passed == c.desk.passed
    requires c.counters.epoch <= c1.counters.epoch && c.counters.subscriptions <= c1.counters.subscriptions
    ensures SourcesOk(c1)
  {
    forall s | s in c1.sources
      ensures SourceOk(c1, s)
    {
      assert SourceOk(c, s) && c1.desk.Passed(s.run) == c.desk.Passed(s.run);
    }
  }

  /** Nothing passes and the gate stays, or is closed. */
  lemma StillGood(c: Client, c1: Client, server: Server)
    requires Good(c, server) && (forall s :: s in c1.sources ==> s in c.sources) && c1.desk.passed == c.desk.passed
    requires c.counters.epoch <= c1.counters.epoch && c.counters.subscriptions <= c1.counters.subscriptions
    requires c1.gate == c.gate || c1.gate.runId == None
    ensures Good(c1, server)
  {
    SameHistory(c.desk, c1.desk, server);
    SourcesKeep(c, c1);
    assert c1.gate.runId.Some? ==> c1.desk.Passed(c1.gate.runId.value) == c.desk.Passed(c1.gate.runId.value);
  }

  lemma AnsweredFields(c: Client, server: Server, i: nat, r: RunId, works: bool)
    requires Enabled(c, server, Answered(i, r, works))
    ensures var c1, home := DoAnswered(c, server, i, r, works), Some(server.home[r]);
            && c1.gate == c.gate.Track(r) && c1.desk == c.desk.Named(c.pending[i].session, r)
            && c1.conversation == home && c1.runConversation == home
            && c1.counters == c.counters && c1.pending == Remove(c.pending, i)
            && c1.sources == c.sources + (if c.pending[i].epoch != c.counters.epoch then [] else
                 [EventSource(r, Some(c.pending[i].session), c.counters.epoch, After(server.Log(r), c1.gate.last))])
  {
    assert c.sources + [] == c.sources;
  }

  /** Only the gate can be wrong after an answer, and it is right if and only if the answer is safe. */
  lemma AnsweredKeeps(c: Client, server: Server, i: nat, r: RunId, works: bool)
    requires WellFormed(server) && Good(c, server) && Enabled(c, server, Answered(i, r, works))
    ensures Good(DoAnswered(c, server, i, r, works), server) <==> Safe(c, server, Answered(i, r, works))
  {
    var c1 := DoAnswered(c, server, i, r, works);
    AnsweredFields(c, server, i, r, works);
    SameHistory(c.desk, c1.desk, server);
    LogAscends(server, r);
    AfterSplits(server.Log(r), 0);
    assert Exact(c.desk, server, r) && c1.desk.Passed(r) == c.desk.Passed(r);
    if c.gate.runId != Some(r) { FreshGateFits(c1.desk, server, r, 0); }
    if Fits(c1.gate, c1.desk, server, r) {
      GateBehind(c1.gate, c1.desk, server, r);
      AnsweredSources(c, server, i, r, works);
    }
  }

  lemma AnsweredSources(c: Client, server: Server, i: nat, r: RunId, works: bool)
    requires SourcesOk(c) && Enabled(c, server, Answered(i, r, works))
    requires After(server.Log(r), c.gate.Track(r).last) <= |c.desk.Passed(r)|
    ensures SourcesOk(DoAnswered(c, server, i, r, works))
  {
    var c1 := DoAnswered(c, server, i, r, works);
    AnsweredFields(c, server, i, r, works);
    forall s | s in c1.sources
      ensures SourceOk(c1, s)
    {
      assert c1.desk.Passed(s.run) == c.desk.Passed(s.run);
      assert s in c.sources ==> SourceOk(c, s);
    }
  }

  lemma ResumeKeeps(c: Client, server: Server, generation: nat, conversation: Conversation, r: RunId, q: nat)
    requires Good(c, server)
    ensures Good(Resume(c, generation, conversation, r, q), server) <==> SafeResume(c, server, r, q)
  {
    if c.desk.ActiveRun() != Some(r) {
      SourcesKeep(c, Resume(c, generation, conversation, r, q));
    }
  }

  lemma ReconnectKeeps(c: Client, server: Server, readable: bool)
    requires Good(c, server) && Enabled(c, server, Reconnect(readable))
    ensures Good(DoReconnect(c, c.conversation.value, readable), server) <==> Safe(c, server, Reconnect(readable))
  {
    var conversation, generation := c.conversation.value, c.counters.reconnects + 1;
    var stored, c1 := Stored(c, conversation, readable), c.(counters := c.counters.(reconnects := generation));
    StillGood(c, c1, server);
    if stored.None? {
      StillGood(c1, DoReconnect(c, conversation, readable), server);
    } else {
      ResumeKeeps(c1, server, generation, conversation, stored.value.run, stored.value.last);
    }
  }

  lemma DiscoveredKeeps(c: Client, server: Server, i: nat, r: RunId)
    requires Good(c, server) && Enabled(c, server, Discovered(i, r))
    ensures Good(DoDiscovered(c, i, r), server) <==> Safe(c, server, Discovered(i, r))
  {
    var p, c1 := c.pending[i], c.(pending := Remove(c.pending, i));
    StillGood(c, c1, server);
    ResumeKeeps(c1, server, p.generation, p.conversation, r, 0);
  }

  lemma SubscribeKeeps(c: Client, server: Server, r: RunId)
    requires WellFormed(server) && Good(c, server) && c.gate.runId == Some(r)
    ensures Good(StartSubscription(c, server, r), server)
  {
    var c1 := StartSubscription(c, server, r);
    GateBehind(c.gate, c.desk, server, r);
    forall s | s in c1.sources
      ensures SourceOk(c1, s)
    {
      assert s in c.sources ==> SourceOk(c, s);
    }
  }

  lemma StatusKeeps(c: Client, server: Server, a: Action)
    requires WellFormed(server) && Good(c, server) && a.StatusRead? && Enabled(c, server, a)
    ensures Good(Move(c, server, a), server)
  {
    var p, c1 := c.pending[a.call], c.(pending := Remove(c.pending, a.call));
    StillGood(c, c1, server);
    EnsuredHistory(c.desk, p.run, a.adopted, a.now);
    if CurrentCall(c, p) {
      if a.status == Live {
        var c2 := c1.(desk := c.desk.Ensured(p.run, a.adopted, a.now).Asked(a.asking, a.now));
        StillGood(c1, c2, server);
        SubscribeKeeps(c2, server, p.run);
      } else {
        StillGood(c1, Move(c, server, a), server);
      }
    }
  }

  lemma ReceivedDesk(d: Desk, session: Option<SessionId>, r: RunId, e: LogEvent, now: int)
    ensures var d1 := d.Received(session, r, e, now);
            && d1.passed == d.passed[r := d.Passed(r) + [e]] && d1.before == d.before
            && d1.ended == (if e.payload.RunEnd? then d.ended + {r} else d.ended)
  {
  }

  lemma RecordedFields(c: Client, gate: Gate, desk: Desk, payload: EventBody, heard: bool, works: bool)
    ensures var c1 := Recorded(c, gate, desk, payload, heard, works);
            && c1.desk == desk && c1.gate == (if payload.RunEnd? then gate.(runId := None) else gate)
            && c1.counters == c.counters && c1.sources == c.sources && c1.pending == c.pending
            && c1.conversation == c.conversation && c1.runConversation == c.runConversation
  {
  }

  lemma ReceivedHistory(c: Client, r: RunId, e: LogEvent, provided: Option<SessionId>, works: bool, now: int)
    requires c.gate.Passes(r, e)
    ensures var c1 := Receive(c, r, e, provided, works, now);
            && c1.desk.passed == c.desk.passed[r := c.desk.Passed(r) + [e]] && c1.desk.before == c.desk.before
            && c1.desk.ended == (if e.payload.RunEnd? then c.desk.ended + {r} else c.desk.ended)
            && c1.gate == (if e.payload.RunEnd? then c.gate.Marked(r, e).(runId := None) else c.gate.Marked(r, e))
            && c1.counters == c.counters && c1.sources == c.sources && c1.pending == c.pending
            && c1.conversation == c.conversation && c1.runConversation == c.runConversation
  {
    var session := if provided.Some? then provided else c.desk.active;
    ReceivedDesk(c.desk, session, r, e, now);
    RecordedFields(c, c.gate.Marked(r, e), c.desk.Received(session, r, e, now), e.payload, session.Some?, works);
  }

  /** One more event keeps a prefix a prefix exactly when it is the next one. */
  lemma OneMore(d: Desk, d1: Desk, server: Server, r: RunId, k: nat)
    requires Ascending(server.Log(r)) && Exact(d, server, r) && k < |server.Log(r)|
    requires d1.Passed(r) == d.Passed(r) + [server.Log(r)[k]]
    ensures Exact(d1, server, r) <==> k == |d.Passed(r)|
  {
    var log, n := server.Log(r), |d.Passed(r)|;
    if n < |log| {
      assert log[..n + 1] == log[..n] + [log[n]];
      assert d1.Passed(r)[n] == log[k];
      assert k < n ==> log[k].sequence < log[n].sequence;
      assert n < k ==> log[n].sequence < log[k].sequence;
    }
  }

  /** What a passing event does: whether it is the next one decides about exactness. */
  lemma PassedExact(c: Client, server: Server, r: RunId, k: nat, provided: Option<SessionId>, works: bool, now: int)
    requires WellFormed(server) && AllExact(c.desk, server) && k < |server.Log(r)| && c.gate.Passes(r, server.Log(r)[k])
    ensures var c1 := Receive(c, r, server.Log(r)[k], provided, works, now);
            && |c1.desk.Passed(r)| == |c.desk.Passed(r)| + 1
            && (forall q: RunId :: q != r ==> c1.desk.Passed(q) == c.desk.Passed(q))
            && (AllExact(c1.desk, server) <==> k == |c.desk.Passed(r)|)
  {
    var e := server.Log(r)[k];
    var c1 := Receive(c, r, e, provided, works, now);
    LogAscends(server, r);
    ReceivedHistory(c, r, e, provided, works, now);
    assert Exact(c.desk, server, r);
    OneMore(c.desk, c1.desk, server, r, k);
    if k == |c.desk.Passed(r)| {
      forall q: RunId
        ensures Exact(c1.desk, server, q)
      {
        assert Exact(c.desk, server, q);
      }
    } else {
      assert !Exact(c1.desk, server, r);
    }
  }

  /** A gate that begins to track a run with its next event stands behind that event. */
  lemma TakenFits(g: Gate, d: Desk, d1: Desk, server: Server, r: RunId)
    requires WellFormed(server) && g.runId != Some(r)
    requires |d.Passed(r)| < |server.Log(r)| && |d1.Passed(r)| == |d.Passed(r)| + 1
    ensures Fits(g.Marked(r, server.Log(r)[|d.Passed(r)|]), d1, server, r)
  {
    var log, n := server.Log(r), |d.Passed(r)|;
    LogAscends(server, r);
    var g1 := g.Marked(r, log[n]);
    assert g1 == Gate(Some(r), log[n].sequence, {(r, log[n].sequence)});
    forall i | 0 <= i < |log|
      ensures g1.Passes(r, log[i]) <==> i >= n + 1
    {
      assert i < n ==> log[i].sequence < log[n].sequence;
      assert n < i ==> log[n].sequence < log[i].sequence;
    }
  }

  /** The next event of a run passes, tracked or not, and the run may end with it. */
  lemma PassedKeeps(c: Client, server: Server, r: RunId, provided: Option<SessionId>, works: bool, now: int)
    requires WellFormed(server) && Good(c, server)
    requires |c.desk.Passed(r)| < |server.Log(r)| && c.gate.Passes(r, server.Log(r)[|c.desk.Passed(r)|])
    ensures var c1 := Receive(c, r, server.Log(r)[|c.desk.Passed(r)|], provided, works, now);
            Good(c1, server) && |c1.desk.Passed(r)| == |c.desk.Passed(r)| + 1 && c1.sources == c.sources
  {
    var n := |c.desk.Passed(r)|;
    var e := server.Log(r)[n];
    var c1 := Receive(c, r, e, provided, works, now);
    ReceivedHistory(c, r, e, provided, works, now);
    PassedExact(c, server, r, n, provided, works, now);
    if c.gate.runId == Some(r) {
      MarkedFits(c.gate, c.desk, c1.desk, server, r);
    } else {
      TakenFits(c.gate, c.desk, c1.desk, server, r);
    }
    forall s | s in c1.sources
      ensures SourceOk(c1, s)
    {
      assert SourceOk(c, s);
    }
  }

  /** An event arrives by a current stream. Of the tracked run it passes if it is the next one and is
      dropped if not; of any other run it passes in any case. */
  lemma ReceiveKeeps(c: Client, server: Server, r: RunId, i: nat, provided: Option<SessionId>, works: bool, now: int)
    requires WellFormed(server) && Good(c, server) && i <= |c.desk.Passed(r)| && i < |server.Log(r)|
    ensures var c1, safe := Receive(c, r, server.Log(r)[i], provided, works, now), c.gate.runId == Some(r) || i == |c.desk.Passed(r)|;
            && (safe ==> Good(c1, server) && i < |c1.desk.Passed(r)| && c1.sources == c.sources)
            && (AllExact(c1.desk, server) <==> safe)
  {
    if c.gate.runId == Some(r) {
      assert c.gate.Passes(r, server.Log(r)[i]) <==> i >= |c.desk.Passed(r)|;
    } else {
      assert c.gate.Passes(r, server.Log(r)[i]);
      PassedExact(c, server, r, i, provided, works, now);
    }
    if i == |c.desk.Passed(r)| {
      PassedKeeps(c, server, r, provided, works, now);
    }
  }

  lemma AdvanceKeeps(c: Client, server: Server, i: nat, moved: seq<EventSource>)
    requires Good(c, server) && i < |c.sources|
    requires moved == c.sources[i := c.sources[i].(next := c.sources[i].next + 1)]
    requires c.sources[i].next < |c.desk.Passed(c.sources[i].run)|
    ensures Good(c.(sources := moved), server)
  {
    forall x | x in moved
      ensures SourceOk(c.(sources := moved), x)
    {
      assert SourceOk(c, c.sources[i]);
      assert x in c.sources ==> SourceOk(c, x);
    }
  }

  /** A delivery leaves what passed a prefix of every log if and only if it is safe: its stream is
      outdated, or serves the tracked run, or does not lag behind. */
  lemma DeliverKeeps(c: Client, server: Server, i: nat, works: bool, now: int)
    requires WellFormed(server) && Good(c, server) && Enabled(c, server, Deliver(i, works, now))
    ensures var c1 := DoDeliver(c, server, i, works, now);
            && (AllExact(c1.desk, server) <==> Safe(c, server, Deliver(i, works, now)))
            && (Good(c1, server) <==> Safe(c, server, Deliver(i, works, now)))
  {
    var s := c.sources[i];
    assert SourceOk(c, s);
    if !Current(c, s) {
      StillGood(c, DoDeliver(c, server, i, works, now), server);
    } else {
      ReceiveKeeps(c, server, s.run, s.next, s.provided, works, now);
      if Safe(c, server, Deliver(i, works, now)) {
        AdvanceKeeps(Receive(c, s.run, server.Log(s.run)[s.next], s.provided, works, now), server, i,
                     c.sources[i := s.(next := s.next + 1)]);
      }
    }
  }

  lemma ReloadKeeps(c: Client, server: Server)
    requires Good(c, server)
    ensures Good(DoReload(c), server)
  {
    SameHistory(c.desk, DoReload(c).desk, server);
  }

  /** An action keeps the invariant if and only if it is safe. */
  lemma MoveKeeps(c: Client, server: Server, a: Action)
    requires WellFormed(server) && Good(c, server) && Enabled(c, server, a)
    ensures Good(Move(c, server, a), server) <==> Safe(c, server, a)
  {
    match a
    case Answered(i, r, works) => AnsweredKeeps(c, server, i, r, works);
    case Reconnect(readable) => ReconnectKeeps(c, server, readable);
    case Discovered(i, r) => DiscoveredKeeps(c, server, i, r);
    case StatusRead(_, _, _, _, _) => StatusKeeps(c, server, a);
    case Resubscribe => SubscribeKeeps(c, server, c.gate.runId.value);
    case Deliver(i, works, now) => DeliverKeeps(c, server, i, works, now);
    case Reload => ReloadKeeps(c, server);
    case Ask => StillGood(c, DoAsk(c), server);
    case Go(to) => StillGood(c, DoGo(c, to), server);
    case GiveUp(i) => StillGood(c, Move(c, server, a), server);
    case Drop(i) => StillGood(c, Move(c, server, a), server);
  }

  // ---------------------------------------------------------------- whole runs

  predicate SafeRun(c: Client, server: Server, actions: seq<Action>)
    decreases |actions|
  {
    actions == []
    || (Enabled(c, server, actions[0]) && Safe(c, server, actions[0])
        && SafeRun(Move(c, server, actions[0]), server, actions[1..]))
  }

  function Outcome(c: Client, server: Server, actions: seq<Action>): Client
    requires SafeRun(c, server, actions)
    decreases |actions|
  {
    if actions == [] then c else Outcome(Move(c, server, actions[0]), server, actions[1..])
  }

  lemma {:induction false} RunKeepsGood(c: Client, server: Server, actions: seq<Action>)
    requires WellFormed(server) && Good(c, server) && SafeRun(c, server, actions)
    ensures Good(Outcome(c, server, actions), server)
    decreases |actions|
  {
    if actions != [] {
      MoveKeeps(c, server, actions[0]);
      RunKeepsGood(Move(c, server, actions[0]), server, actions[1..]);
    }
  }

  /** The invariant holds all along a run of possible actions. */
  ghost predicate GoodRun(c: Client, server: Server, actions: seq<Action>)
    decreases |actions|
  {
    Good(c, server)
    && (actions == [] || (Enabled(c, server, actions[0]) && GoodRun(Move(c, server, actions[0]), server, actions[1..])))
  }

  /** Safe runs are exactly those along which the gate fits and nothing is lost, repeated or reordered. */
  lemma {:induction false} SafeRunsAreGood(c: Client, server: Server, actions: seq<Action>)
    requires WellFormed(server) && Good(c, server)
    ensures SafeRun(c, server, actions) <==> GoodRun(c, server, actions)
    decreases |actions|
  {
    if actions != [] && Enabled(c, server, actions[0]) {
      MoveKeeps(c, server, actions[0]);
      if Safe(c, server, actions[0]) { SafeRunsAreGood(Move(c, server, actions[0]), server, actions[1..]); }
    }
  }

  lemma NewClientIsGood(server: Server)
    ensures Good(NEW_CLIENT, server)
  {
    forall r: RunId
      ensures Exact(NEW_CLIENT.desk, server, r)
    {
      assert NEW_CLIENT.desk.Passed(r) == [];
    }
  }

  /** Exactly once: after any safe run, over any number of pages, what passed the gate is a prefix of the
      log of each run. */
  lemma {:induction false} ExactlyOnce(server: Server, actions: seq<Action>, r: RunId)
    requires WellFormed(server) && SafeRun(NEW_CLIENT, server, actions)
    ensures Outcome(NEW_CLIENT, server, actions).desk.Passed(r) <= server.Log(r)
  {
    NewClientIsGood(server);
    RunKeepsGood(NEW_CLIENT, server, actions);
    assert Exact(Outcome(NEW_CLIENT, server, actions).desk, server, r);
  }
}
