/** How replay fails when an action is not safe: a resumed run repeats or skips an event exactly when it is
    not resumed in place, a started one exactly when some of it had passed, and a stream of a run that is
    not tracked exactly when it lags behind.
  */
module ReplayLimits {
  import opened Options
  import opened ChatParts
  import opened Timeline
  import opened Replay
  import opened ReplayTheorems

  // ---------------------------------------------------------------- resuming

  /** A run is resumed at `q`, the server says it is alive, and its first event arrives. */
  function ResumedOnce(c: Client, server: Server, conversation: Conversation, r: RunId, q: nat, works: bool, now: int): Client
    requires c.conversation == Some(conversation) && c.desk.ActiveRun() != Some(r)
    requires After(server.Log(r), q) < |server.Log(r)|
  {
    var c1 := Resume(c, c.counters.reconnects, conversation, r, q);
    var c2 := DoStatus(c1, server, |c.pending|, Live, None, [], now);
    assert CurrentCall(c1, c1.pending[|c.pending|]);
    DoDeliver(c2, server, |c.sources|, works, now)
  }

  /** Resuming an untracked run at `q` keeps what passed a prefix if and only if `q` is in place. */
  lemma ResumedExactlyInPlace(c: Client, server: Server, conversation: Conversation, r: RunId, q: nat, works: bool, now: int)
    requires WellFormed(server) && Exact(c.desk, server, r)
    requires c.conversation == Some(conversation) && c.desk.ActiveRun() != Some(r) && c.gate.runId != Some(r)
    requires After(server.Log(r), q) < |server.Log(r)|
    ensures var d := ResumedOnce(c, server, conversation, r, q, works, now).desk;
            && d.Passed(r) == c.desk.Passed(r) + [server.Log(r)[After(server.Log(r), q)]]
            && (Exact(d, server, r) <==> InPlace(c.desk, server, r, q))
  {
    var log, k := server.Log(r), After(server.Log(r), q);
    LogAscends(server, r);
    AfterSplits(log, q);
    ResumedGate(c, server, conversation, r, q, now);
    var c2 := DoStatus(Resume(c, c.counters.reconnects, conversation, r, q), server, |c.pending|, Live, None, [], now);
    assert c2.gate.Passes(r, log[k]);
    assert Current(c2, c2.sources[|c.sources|]);
    ReceivedHistory(c2, r, log[k], None, works, now);
    OneMore(c.desk, DoDeliver(c2, server, |c.sources|, works, now).desk, server, r, k);
  }

  /** Starting an untracked run keeps what passed a prefix if and only if nothing of it had passed. */
  lemma AnsweredExactlyFresh(c: Client, server: Server, i: nat, r: RunId, works: bool, now: int)
    requires WellFormed(server) && Exact(c.desk, server, r) && Enabled(c, server, Answered(i, r, works))
    requires c.pending[i].epoch == c.counters.epoch && c.gate.runId != Some(r) && server.Log(r) != []
    ensures var c1 := DoAnswered(c, server, i, r, works);
            && |c1.sources| == |c.sources| + 1 && c1.sources[|c.sources|].run == r && c1.sources[|c.sources|].next == 0
            && (var d := DoDeliver(c1, server, |c.sources|, works, now).desk;
                d.Passed(r) == c.desk.Passed(r) + [server.Log(r)[0]] && (Exact(d, server, r) <==> c.desk.Passed(r) == []))
  {
    var c1, id := DoAnswered(c, server, i, r, works), c.pending[i].session;
    AnsweredFields(c, server, i, r, works);
    LogAscends(server, r);
    AfterSplits(server.Log(r), 0);
    assert c1.sources[|c.sources|] == EventSource(r, Some(id), c.counters.epoch, 0);
    assert c1.gate == Gate(Some(r), 0, {}) && c1.gate.Passes(r, server.Log(r)[0]);
    ReceivedHistory(c1, r, server.Log(r)[0], Some(id), works, now);
    OneMore(c.desk, DoDeliver(c1, server, |c.sources|, works, now).desk, server, r, 0);
  }

  lemma ResumedGate(c: Client, server: Server, conversation: Conversation, r: RunId, q: nat, now: int)
    requires c.conversation == Some(conversation) && c.desk.ActiveRun() != Some(r) && c.gate.runId != Some(r)
    ensures var c1 := Resume(c, c.counters.reconnects, conversation, r, q);
            && |c1.pending| == |c.pending| + 1 && c1.pending[|c.pending|].ReadingStatus?
            && (var c2 := DoStatus(c1, server, |c.pending|, Live, None, [], now);
                && c2.gate == Gate(Some(r), q, {}) && |c2.sources| == |c.sources| + 1
                && c2.sources[|c.sources|] == EventSource(r, None, c2.counters.subscriptions, After(server.Log(r), q))
                && c2.desk.passed == c.desk.passed)
  {
    var c1 := Resume(c, c.counters.reconnects, conversation, r, q);
    assert CurrentCall(c1, c1.pending[|c.pending|]);
    EnsuredHistory(c.desk, r, [], now);
  }

  /** Coming back without a snapshot to a run that already streamed something, in this page or in one
      before: the server names the run, it is replayed from its start, and its first event passes again. */
  lemma LostSnapshotRepeats(c: Client, server: Server, conversation: Conversation, r: RunId, works: bool, now: int)
    requires WellFormed(server) && Good(c, server)
    requires c.conversation == Some(conversation) && c.gate.runId == None && c.desk.ActiveRun() == None
    requires r in server.home && server.home[r] == conversation && c.desk.Passed(r) != []
    ensures var c1 := DoReconnect(c, conversation, false);
            && c1.pending == c.pending + [Discovering(c1.counters.reconnects, conversation)]
            && Enabled(c1, server, Discovered(|c.pending|, r)) && !Safe(c1, server, Discovered(|c.pending|, r))
            && (var c2 := c1.(pending := c.pending);
                && DoDiscovered(c1, |c.pending|, r) == Resume(c2, c2.counters.reconnects, conversation, r, 0)
                && After(server.Log(r), 0) == 0 < |server.Log(r)|
                && ResumedOnce(c2, server, conversation, r, 0, works, now).desk.Passed(r)
                   == c.desk.Passed(r) + [server.Log(r)[0]])
  {
    var c1 := DoReconnect(c, conversation, false);
    assert Stored(c, conversation, false) == None;
    assert Remove(c1.pending, |c.pending|) == c.pending;
    FirstAfterZero(c.desk, server, r);
    FreshGateFits(c.desk, server, r, 0);
    assert c1.gate.Track(r).(last := 0) == Gate(Some(r), 0, {});
    ResumedExactlyInPlace(c1.(pending := c.pending), server, conversation, r, 0, works, now);
  }

  lemma FirstAfterZero(d: Desk, server: Server, r: RunId)
    requires WellFormed(server) && AllExact(d, server) && d.Passed(r) != []
    ensures After(server.Log(r), 0) == 0 < |server.Log(r)| && !InPlace(d, server, r, 0)
  {
    assert Exact(d, server, r);
    LogAscends(server, r);
    AfterSplits(server.Log(r), 0);
  }

  // ---------------------------------------------------------------- late streams

  /** An original stream goes on when its run is no longer tracked: because the run ended, or because
      another one took the gate. Its next event passes the gate again, and what passed stays a prefix if
      and only if the stream did not lag behind. */
  lemma LateStreamRepeats(c: Client, server: Server, i: nat, works: bool, now: int)
    requires WellFormed(server) && Good(c, server)
    requires i < |c.sources| && c.sources[i].next < |server.Log(c.sources[i].run)|
    requires Current(c, c.sources[i]) && c.gate.runId != Some(c.sources[i].run)
    ensures var s := c.sources[i];
            var d := DoDeliver(c, server, i, works, now).desk;
            && d.Passed(s.run) == c.desk.Passed(s.run) + [server.Log(s.run)[s.next]]
            && (Exact(d, server, s.run) <==> s.next == |c.desk.Passed(s.run)|)
  {
    var s := c.sources[i];
    var e := server.Log(s.run)[s.next];
    LogAscends(server, s.run);
    assert Exact(c.desk, server, s.run);
    assert c.gate.Passes(s.run, e);
    ReceivedHistory(c, s.run, e, s.provided, works, now);
    OneMore(c.desk, DoDeliver(c, server, i, works, now).desk, server, s.run, s.next);
  }
}
