/** Coming back: with working session storage, and a server that names the newest run of a conversation,
    every return to a conversation is safe, at any moment and in any page.
  */
module ReplayStorage {
  import opened Options
  import opened ChatParts
  import opened Timeline
  import opened Replay
  import opened ReplayTheorems
  import opened ReplayTracking
  import opened ReplaySessions
  import opened ReplayTidy

  // ---------------------------------------------------------------- where the snapshots stand

  predicate SnapshotOk(d: Desk, server: Server, k: Conversation, s: Snapshot) {
    s.run !in d.ended && InPlace(d, server, s.run, s.last) && s.run in server.home && server.home[s.run] == k
  }

  predicate SnapshotsOk(d: Desk, server: Server, snapshots: map<Conversation, Snapshot>) {
    forall k :: k in snapshots ==> SnapshotOk(d, server, k, snapshots[k])
  }

  /** Every snapshot is right behind what passed of its run, and so is the gate, whose run is at home. */
  predicate Anchored(c: Client, server: Server) {
    && SnapshotsOk(c.desk, server, c.snapshots)
    && (c.gate.runId.Some? ==>
          var r := c.gate.runId.value;
          r in server.home && c.runConversation == Some(server.home[r]) && InPlace(c.desk, server, r, c.gate.last))
  }

  // ---------------------------------------------------------------- what the snapshots remember

  /** When the server started a run, relative to the others of its conversation. */
  function Turn(turns: map<RunId, nat>, r: RunId): nat {
    if r in turns then turns[r] else 0
  }

  /** The runs of a conversation are started one after the other. */
  predicate InTurn(server: Server, turns: map<RunId, nat>) {
    forall q, r :: q in server.home && r in server.home && q != r && server.home[q] == server.home[r]
                   ==> Turn(turns, q) != Turn(turns, r)
  }

  predicate Stores(server: Server, snapshots: map<Conversation, Snapshot>, r: RunId)
    requires r in server.home
  {
    server.home[r] in snapshots && snapshots[server.home[r]].run == r
  }

  /** The client has something of the run: events, its end, or a snapshot. */
  predicate Heard(d: Desk, server: Server, snapshots: map<Conversation, Snapshot>, r: RunId)
    requires r in server.home
  {
    d.Passed(r) != [] || r in d.ended || Stores(server, snapshots, r)
  }

  /** The client has nothing of a later run of the same conversation. */
  predicate Newest(d: Desk, server: Server, snapshots: map<Conversation, Snapshot>, turns: map<RunId, nat>, r: RunId) {
    r in server.home
    && forall q :: q in server.home && server.home[q] == server.home[r] && Heard(d, server, snapshots, q)
                   ==> Turn(turns, q) <= Turn(turns, r)
  }

  predicate Overtaken(d: Desk, server: Server, snapshots: map<Conversation, Snapshot>, turns: map<RunId, nat>, r: RunId)
    requires r in server.home
  {
    exists q :: q in server.home && server.home[q] == server.home[r] && Heard(d, server, snapshots, q)
                && Turn(turns, r) < Turn(turns, q)
  }

  /** A run that streamed and did not end has the snapshot of its conversation, or a later one has begun. */
  predicate Kept(d: Desk, server: Server, snapshots: map<Conversation, Snapshot>, turns: map<RunId, nat>, r: RunId)
    requires r in server.home
  {
    d.Passed(r) != [] && r !in d.ended ==> Stores(server, snapshots, r) || Overtaken(d, server, snapshots, turns, r)
  }

  predicate AllKept(d: Desk, server: Server, snapshots: map<Conversation, Snapshot>, turns: map<RunId, nat>) {
    && (forall k :: k in snapshots ==> Newest(d, server, snapshots, turns, snapshots[k].run))
    && (forall r :: r in server.home ==> Kept(d, server, snapshots, turns, r))
  }

  /** The tracked run and those of the snapshots are the newest of their conversations. */
  predicate Remembered(c: Client, server: Server, turns: map<RunId, nat>) {
    && AllKept(c.desk, server, c.snapshots, turns)
    && (c.gate.runId.Some? ==> Newest(c.desk, server, c.snapshots, turns, c.gate.runId.value))
  }

  /** Of the newest run of a conversation without a snapshot nothing was received, unless it has ended. */
  lemma NewestIsFresh(c: Client, server: Server, turns: map<RunId, nat>, r: RunId)
    requires Remembered(c, server, turns) && Newest(c.desk, server, c.snapshots, turns, r)
    requires r !in c.desk.ended && server.home[r] !in c.snapshots
    ensures c.desk.Passed(r) == []
  {
    assert Kept(c.desk, server, c.snapshots, turns, r);
  }

  // ---------------------------------------------------------------- friendly actions

  /** Session storage works, and so its snapshots can be read; a start is answered with the newest run of
      its conversation, as is a discovery, with one that is live, unless a snapshot was stored meanwhile;
      and starts and late streams are orderly. */
  predicate Friendly(c: Client, server: Server, turns: map<RunId, nat>, a: Action)
    requires Enabled(c, server, a)
  {
    Tidy(c, server, a) &&
    match a
    case Answered(_, r, works) => works && Orderly(c, server, a) && Newest(c.desk, server, c.snapshots, turns, r)
    case Reconnect(readable) => readable
    case Discovered(i, r) =>
      CurrentDiscovery(c, i)
      ==> c.desk.ActiveRun() == Some(r)
          || ((c.gate.runId == None || c.gate.runId == Some(r)) && r !in c.desk.ended
              && Newest(c.desk, server, c.snapshots, turns, r) && c.pending[i].conversation !in c.snapshots)
    case Deliver(_, works, _) => works && Orderly(c, server, a)
    case _ => true
  }

  /** A run nothing was received from may be resumed from its start. */
  lemma NothingPassedFits(c: Client, server: Server, r: RunId)
    requires WellFormed(server) && Steady(c, server)
    ensures c.desk.Passed(r) == [] ==> Fits(c.gate.Track(r).(last := 0), c.desk, server, r)
  {
    if c.desk.Passed(r) == [] {
      if c.gate.runId == Some(r) {
        assert Fits(c.gate, c.desk, server, r);
      } else {
        LogAscends(server, r);
        AfterSplits(server.Log(r), 0);
        assert Exact(c.desk, server, r);
        FreshGateFits(c.desk, server, r, 0);
      }
    }
  }

  /** With working storage, returning to a conversation is safe at any moment and in any page. */
  lemma FriendlyIsOrderly(c: Client, server: Server, turns: map<RunId, nat>, a: Action)
    requires WellFormed(server) && Steady(c, server) && Anchored(c, server) && Remembered(c, server, turns)
    requires Enabled(c, server, a) && Friendly(c, server, turns, a)
    ensures Orderly(c, server, a)
  {
    match a
    case Reconnect(readable) => StoredIsLive(c, server);
    case Discovered(i, r) => FreshIsLive(c, server, turns, i, r);
    case _ =>
  }

  lemma StoredIsLive(c: Client, server: Server)
    requires WellFormed(server) && Steady(c, server) && Anchored(c, server) && c.conversation.Some?
    ensures Orderly(c, server, Reconnect(true))
  {
    var stored := Stored(c, c.conversation.value, true);
    if stored.Some? {
      var r := stored.value.run;
      if c.gate.runId == None {
        assert SnapshotOk(c.desk, server, c.conversation.value, stored.value);
        assert Exact(c.desk, server, r);
        FreshGateFits(c.desk, server, r, stored.value.last);
      } else {
        assert c.gate.Track(r).(last := c.gate.last) == c.gate;
      }
    }
  }

  lemma FreshIsLive(c: Client, server: Server, turns: map<RunId, nat>, i: nat, r: RunId)
    requires WellFormed(server) && Steady(c, server) && Remembered(c, server, turns)
    requires Enabled(c, server, Discovered(i, r)) && Friendly(c, server, turns, Discovered(i, r))
    ensures Orderly(c, server, Discovered(i, r))
    ensures CurrentDiscovery(c, i) && c.desk.ActiveRun() != Some(r) ==> c.desk.Passed(r) == []
  {
    if CurrentDiscovery(c, i) && c.desk.ActiveRun() != Some(r) {
      NewestIsFresh(c, server, turns, r);
      NothingPassedFits(c, server, r);
    }
  }

  // ---------------------------------------------------------------- actions keep the snapshots in place

  /** Nothing passes and nothing ends. */
  lemma AnchoredStill(c: Client, c1: Client, server: Server)
    requires Anchored(c, server) && c1.snapshots == c.snapshots
    requires c1.desk.passed == c.desk.passed && c1.desk.ended == c.desk.ended
    requires c1.gate.runId.Some? ==> c1.gate == c.gate && c1.runConversation == c.runConversation
    ensures Anchored(c1, server)
  {
    SnapshotsStill(c.desk, c1.desk, server, c.snapshots);
    assert c1.gate.runId.Some? ==> c1.desk.Passed(c1.gate.runId.value) == c.desk.Passed(c1.gate.runId.value);
  }

  lemma SnapshotsStill(d: Desk, d1: Desk, server: Server, snapshots: map<Conversation, Snapshot>)
    requires SnapshotsOk(d, server, snapshots) && d1.passed == d.passed && d1.ended == d.ended
    ensures SnapshotsOk(d1, server, snapshots)
  {
    forall k | k in snapshots
      ensures SnapshotOk(d1, server, k, snapshots[k])
    {
      assert SnapshotOk(d, server, k, snapshots[k]) && d1.Passed(snapshots[k].run) == d.Passed(snapshots[k].run);
    }
  }

  lemma AnchoredResume(c: Client, server: Server, generation: nat, conversation: Conversation, r: RunId, q: nat)
    requires Anchored(c, server) && r in server.home && server.home[r] == conversation && InPlace(c.desk, server, r, q)
    ensures Anchored(Resume(c, generation, conversation, r, q), server)
  {
  }

  lemma AnchoredReconnect(c: Client, server: Server, readable: bool)
    requires Steady(c, server) && Anchored(c, server) && c.conversation.Some?
    ensures Anchored(DoReconnect(c, c.conversation.value, readable), server)
  {
    var conversation, generation := c.conversation.value, c.counters.reconnects + 1;
    var c1, stored := c.(counters := c.counters.(reconnects := generation)), Stored(c, conversation, readable);
    AnchoredStill(c, c1, server);
    if stored.Some? {
      assert conversation in c.snapshots ==> SnapshotOk(c.desk, server, conversation, c.snapshots[conversation]);
      AnchoredResume(c1, server, generation, conversation, stored.value.run, stored.value.last);
    }
  }

  /** Snapshots of other conversations do not care about run `r`. */
  lemma SnapshotsElsewhere(d: Desk, d1: Desk, server: Server, snapshots: map<Conversation, Snapshot>, r: RunId)
    requires SnapshotsOk(d, server, snapshots) && r in server.home && server.home[r] !in snapshots
    requires (forall q: RunId :: q != r ==> d1.Passed(q) == d.Passed(q)) && d1.ended <= d.ended + {r}
    ensures SnapshotsOk(d1, server, snapshots)
  {
    forall k | k in snapshots
      ensures SnapshotOk(d1, server, k, snapshots[k])
    {
      assert SnapshotOk(d, server, k, snapshots[k]) && snapshots[k].run != r;
      assert d1.Passed(snapshots[k].run) == d.Passed(snapshots[k].run);
    }
  }

  /** A passing event of the tracked run stores its snapshot, or clears it with the end of the run. */
  lemma PassedSnapshots(c: Client, server: Server, r: RunId, provided: Option<SessionId>, now: int)
    requires Steady(c, server) && Anchored(c, server) && c.gate.runId == Some(r)
    requires |c.desk.Passed(r)| < |server.Log(r)| && (provided.Some? || c.desk.active.Some?)
    ensures var e := server.Log(r)[|c.desk.Passed(r)|];
            var c1 := Receive(c, r, e, provided, true, now);
            c1.snapshots == if e.payload.RunEnd? then c.snapshots - {server.home[r]}
                            else c.snapshots[server.home[r] := Snapshot(r, c1.gate.last)]
  {
    assert c.gate.Passes(r, server.Log(r)[|c.desk.Passed(r)|]);
  }

  lemma AnchoredPassed(c: Client, server: Server, r: RunId, provided: Option<SessionId>, now: int)
    requires WellFormed(server) && Steady(c, server) && Anchored(c, server) && c.gate.runId == Some(r)
    requires |c.desk.Passed(r)| < |server.Log(r)| && (provided.Some? || c.desk.active.Some?)
    ensures Anchored(Receive(c, r, server.Log(r)[|c.desk.Passed(r)|], provided, true, now), server)
  {
    var n, home := |c.desk.Passed(r)|, server.home[r];
    var e := server.Log(r)[n];
    assert c.gate.Passes(r, e);
    var c1, others := Receive(c, r, e, provided, true, now), c.snapshots - {home};
    ReceivedHistory(c, r, e, provided, true, now);
    LogAscends(server, r);
    AfterExactly(server.Log(r), n);
    MarkedFits(c.gate, c.desk, c1.desk, server, r);
    assert SnapshotsOk(c.desk, server, others) by {
      assert forall k :: k in others ==> SnapshotOk(c.desk, server, k, c.snapshots[k]);
    }
    SnapshotsElsewhere(c.desk, c1.desk, server, others, r);
    PassedSnapshots(c, server, r, provided, now);
    forall k | k in c1.snapshots
      ensures SnapshotOk(c1.desk, server, k, c1.snapshots[k])
    {
      if k != home { assert k in others && SnapshotOk(c1.desk, server, k, others[k]); }
    }
  }

  lemma AnchoredDeliver(c: Client, server: Server, i: nat, now: int)
    requires WellFormed(server) && Steady(c, server) && Seated(c, server) && Anchored(c, server) && i < |c.sources|
    requires c.sources[i].next < |server.Log(c.sources[i].run)| && Orderly(c, server, Deliver(i, true, now))
    ensures Anchored(DoDeliver(c, server, i, true, now), server)
  {
    var s := c.sources[i];
    assert SourceOk(c, s) && StreamOk(c, s);
    if !Current(c, s) {
      AnchoredStill(c, DoDeliver(c, server, i, true, now), server);
    } else {
      CurrentServes(c, s);
      var c1 := Receive(c, s.run, server.Log(s.run)[s.next], s.provided, true, now);
      if s.next == |c.desk.Passed(s.run)| {
        AnchoredPassed(c, server, s.run, s.provided, now);
      } else {
        assert c1 == c;
      }
      AnchoredStill(c1, DoDeliver(c, server, i, true, now), server);
    }
  }

  lemma AnchoredAnswered(c: Client, server: Server, i: nat, r: RunId)
    requires WellFormed(server) && Steady(c, server) && Anchored(c, server) && Enabled(c, server, Answered(i, r, true))
    requires Orderly(c, server, Answered(i, r, true))
    ensures Anchored(DoAnswered(c, server, i, r, true), server)
  {
    var c1, home := DoAnswered(c, server, i, r, true), server.home[r];
    AnsweredFields(c, server, i, r, true);
    LogAscends(server, r);
    AfterSplits(server.Log(r), 0);
    assert c1.desk.Passed(r) == c.desk.Passed(r) && InPlace(c1.desk, server, r, c1.gate.last);
    SnapshotsStill(c.desk, c1.desk, server, c.snapshots);
    assert c1.snapshots == c.snapshots[home := Snapshot(r, c1.gate.last)];
    forall k | k in c1.snapshots
      ensures SnapshotOk(c1.desk, server, k, c1.snapshots[k])
    {
      assert k != home ==> SnapshotOk(c1.desk, server, k, c.snapshots[k]);
    }
  }

  lemma AnchoredStatus(c: Client, server: Server, a: Action)
    requires WellFormed(server) && Steady(c, server) && Anchored(c, server) && a.StatusRead? && Enabled(c, server, a)
    ensures Anchored(Move(c, server, a), server)
  {
    var p := c.pending[a.call];
    if !CurrentCall(c, p) || a.status == Live {
      EnsuredHistory(c.desk, p.run, a.adopted, a.now);
      AnchoredStill(c, Move(c, server, a), server);
    } else {
      var c1 := c.(pending := Remove(c.pending, a.call));
      var d := c.desk.Ensured(p.run, a.adopted, a.now).Touched(Failure, a.now);
      EnsuredHistory(c.desk, p.run, a.adopted, a.now);
      AnchoredStill(c, c1, server);
      AnchoredClosed(c1, server, if a.status == Failed then d else c.desk, p.run);
    }
  }

  /** The tracked run is over: its snapshot goes with it. */
  lemma AnchoredClosed(c: Client, server: Server, d: Desk, r: RunId)
    requires Anchored(c, server) && c.gate.runId == Some(r) && d.passed == c.desk.passed && d.ended == c.desk.ended
    ensures Anchored(ClearSnapshot(c.(gate := c.gate.(runId := None), counters := Disconnect(c.counters),
                                      desk := d.Closed(r))), server)
  {
    var c1 := ClearSnapshot(c.(gate := c.gate.(runId := None), counters := Disconnect(c.counters), desk := d.Closed(r)));
    var others := c.snapshots - {server.home[r]};
    assert SnapshotsOk(c.desk, server, others) by {
      assert forall k :: k in others ==> SnapshotOk(c.desk, server, k, c.snapshots[k]);
    }
    assert c1.snapshots == others;
    assert forall q: RunId :: c1.desk.Passed(q) == c.desk.Passed(q);
    SnapshotsElsewhere(c.desk, c1.desk, server, others, r);
  }

  lemma AnchoredDiscovered(c: Client, server: Server, turns: map<RunId, nat>, i: nat, r: RunId)
    requires WellFormed(server) && Steady(c, server) && Anchored(c, server) && Remembered(c, server, turns)
    requires Enabled(c, server, Discovered(i, r)) && Friendly(c, server, turns, Discovered(i, r))
    ensures Anchored(DoDiscovered(c, i, r), server)
  {
    var p, c1 := c.pending[i], c.(pending := Remove(c.pending, i));
    AnchoredStill(c, c1, server);
    if c.counters.reconnects == p.generation && c.conversation == Some(p.conversation) && c.desk.ActiveRun() != Some(r) {
      FreshIsLive(c, server, turns, i, r);
      LogAscends(server, r);
      AfterSplits(server.Log(r), 0);
      AnchoredResume(c1, server, p.generation, p.conversation, r, 0);
    }
  }

  lemma FriendlyAnchors(c: Client, server: Server, turns: map<RunId, nat>, a: Action)
    requires WellFormed(server) && Steady(c, server) && Seated(c, server) && Anchored(c, server)
    requires Remembered(c, server, turns) && Enabled(c, server, a) && Friendly(c, server, turns, a)
    ensures Anchored(Move(c, server, a), server)
  {
    match a
    case Answered(i, r, _) => AnchoredAnswered(c, server, i, r);
    case Reconnect(readable) => AnchoredReconnect(c, server, readable);
    case Discovered(i, r) => AnchoredDiscovered(c, server, turns, i, r);
    case StatusRead(_, _, _, _, _) => AnchoredStatus(c, server, a);
    case Deliver(i, works, now) => AnchoredDeliver(c, server, i, now);
    case Ask => AnchoredStill(c, DoAsk(c), server);
    case Go(to) => AnchoredStill(c, DoGo(c, to), server);
    case Resubscribe => AnchoredStill(c, Move(c, server, a), server);
    case GiveUp(_) => AnchoredStill(c, Move(c, server, a), server);
    case Drop(_) => AnchoredStill(c, Move(c, server, a), server);
    case Reload => AnchoredStill(c, DoReload(c), server);
  }

  // ---------------------------------------------------------------- actions keep what is remembered

  /** Only run `r` and the snapshot of its conversation change. */
  ghost predicate Elsewhere(d: Desk, d1: Desk, server: Server, snapshots: map<Conversation, Snapshot>,
                            snapshots1: map<Conversation, Snapshot>, r: RunId)
    requires r in server.home
  {
    && (forall q: RunId :: q != r ==> d1.Passed(q) == d.Passed(q) && (q in d1.ended <==> q in d.ended))
    && (forall k :: k != server.home[r] ==> (k in snapshots1 <==> k in snapshots))
    && (forall k :: k in snapshots1 && k != server.home[r] ==> snapshots1[k] == snapshots[k])
    && (server.home[r] in snapshots1 ==> snapshots1[server.home[r]].run == r)
  }

  lemma HeardBefore(d: Desk, d1: Desk, server: Server, snapshots: map<Conversation, Snapshot>,
                    snapshots1: map<Conversation, Snapshot>, r: RunId, q: RunId)
    requires r in server.home && q in server.home && q != r && Elsewhere(d, d1, server, snapshots, snapshots1, r)
    ensures Heard(d1, server, snapshots1, q) ==> Heard(d, server, snapshots, q)
    ensures server.home[q] != server.home[r] ==> Heard(d1, server, snapshots1, q) == Heard(d, server, snapshots, q)
    ensures server.home[q] != server.home[r] ==> Stores(server, snapshots1, q) == Stores(server, snapshots, q)
  {
  }

  /** The newest run of its conversation overtakes the others. */
  lemma Overtakes(d: Desk, d1: Desk, server: Server, snapshots: map<Conversation, Snapshot>,
                  snapshots1: map<Conversation, Snapshot>, turns: map<RunId, nat>, r: RunId, q: RunId)
    requires InTurn(server, turns) && Newest(d, server, snapshots, turns, r) && q in server.home && q != r
    requires Elsewhere(d, d1, server, snapshots, snapshots1, r) && Heard(d1, server, snapshots1, r)
    requires Overtaken(d, server, snapshots, turns, q) || (server.home[q] == server.home[r] && Heard(d, server, snapshots, q))
    ensures Overtaken(d1, server, snapshots1, turns, q)
  {
    if server.home[q] == server.home[r] {
      if Heard(d, server, snapshots, q) {
        assert Turn(turns, q) < Turn(turns, r);
      } else {
        var p :| p in server.home && server.home[p] == server.home[q] && Heard(d, server, snapshots, p)
                 && Turn(turns, q) < Turn(turns, p);
        assert Turn(turns, p) <= Turn(turns, r);
      }
    } else {
      var p :| p in server.home && server.home[p] == server.home[q] && Heard(d, server, snapshots, p)
               && Turn(turns, q) < Turn(turns, p);
      HeardBefore(d, d1, server, snapshots, snapshots1, r, p);
    }
  }

  lemma StillNewest(d: Desk, d1: Desk, server: Server, snapshots: map<Conversation, Snapshot>,
                    snapshots1: map<Conversation, Snapshot>, turns: map<RunId, nat>, r: RunId, p: RunId)
    requires r in server.home && Elsewhere(d, d1, server, snapshots, snapshots1, r)
    requires Newest(d, server, snapshots, turns, p) && (p == r || server.home[p] != server.home[r])
    ensures Newest(d1, server, snapshots1, turns, p)
  {
    forall q | q in server.home && server.home[q] == server.home[p] && Heard(d1, server, snapshots1, q)
      ensures Turn(turns, q) <= Turn(turns, p)
    {
      if q != r { HeardBefore(d, d1, server, snapshots, snapshots1, r, q); }
    }
  }

  /** The newest run of its conversation streams, starts or ends. */
  lemma KeptThrough(d: Desk, d1: Desk, server: Server, snapshots: map<Conversation, Snapshot>,
                    snapshots1: map<Conversation, Snapshot>, turns: map<RunId, nat>, r: RunId)
    requires InTurn(server, turns) && AllKept(d, server, snapshots, turns) && Newest(d, server, snapshots, turns, r)
    requires SnapshotsOk(d, server, snapshots)
    requires Elsewhere(d, d1, server, snapshots, snapshots1, r) && Heard(d1, server, snapshots1, r)
    requires r in d1.ended || server.home[r] in snapshots1
    ensures AllKept(d1, server, snapshots1, turns) && Newest(d1, server, snapshots1, turns, r)
  {
    StillNewest(d, d1, server, snapshots, snapshots1, turns, r, r);
    forall k | k in snapshots1
      ensures Newest(d1, server, snapshots1, turns, snapshots1[k].run)
    {
      if k != server.home[r] {
        assert SnapshotOk(d, server, k, snapshots[k]);
        StillNewest(d, d1, server, snapshots, snapshots1, turns, r, snapshots[k].run);
      }
    }
    forall q | q in server.home
      ensures Kept(d1, server, snapshots1, turns, q)
    {
      if q != r && d1.Passed(q) != [] && q !in d1.ended {
        assert Kept(d, server, snapshots, turns, q);
        if server.home[q] == server.home[r] || Overtaken(d, server, snapshots, turns, q) {
          Overtakes(d, d1, server, snapshots, snapshots1, turns, r, q);
        } else {
          HeardBefore(d, d1, server, snapshots, snapshots1, r, q);
        }
      }
    }
  }

  /** Nothing is received, ended or stored. */
  lemma StillKept(d: Desk, d1: Desk, server: Server, snapshots: map<Conversation, Snapshot>, turns: map<RunId, nat>)
    requires AllKept(d, server, snapshots, turns) && d1.passed == d.passed && d1.ended == d.ended
    ensures AllKept(d1, server, snapshots, turns)
    ensures forall r: RunId :: Newest(d, server, snapshots, turns, r) ==> Newest(d1, server, snapshots, turns, r)
  {
    forall r | r in server.home
      ensures Heard(d1, server, snapshots, r) == Heard(d, server, snapshots, r)
      ensures Kept(d1, server, snapshots, turns, r)
    {
      assert d1.Passed(r) == d.Passed(r);
    }
  }

  lemma RemembersStill(c: Client, c1: Client, server: Server, turns: map<RunId, nat>)
    requires Remembered(c, server, turns) && c1.snapshots == c.snapshots
    requires c1.desk.passed == c.desk.passed && c1.desk.ended == c.desk.ended
    requires c1.gate.runId.Some? ==> c1.gate.runId == c.gate.runId || Newest(c.desk, server, c.snapshots, turns, c1.gate.runId.value)
    ensures Remembered(c1, server, turns)
  {
    StillKept(c.desk, c1.desk, server, c.snapshots, turns);
  }

  lemma RemembersAnswered(c: Client, server: Server, turns: map<RunId, nat>, i: nat, r: RunId)
    requires InTurn(server, turns) && Anchored(c, server) && Remembered(c, server, turns)
    requires Enabled(c, server, Answered(i, r, true)) && Newest(c.desk, server, c.snapshots, turns, r)
    ensures Remembered(DoAnswered(c, server, i, r, true), server, turns)
  {
    var c1 := DoAnswered(c, server, i, r, true);
    AnsweredFields(c, server, i, r, true);
    assert c1.snapshots == c.snapshots[server.home[r] := Snapshot(r, c1.gate.last)];
    assert forall q: RunId :: c1.desk.Passed(q) == c.desk.Passed(q);
    KeptThrough(c.desk, c1.desk, server, c.snapshots, c1.snapshots, turns, r);
  }

  lemma RemembersReconnect(c: Client, server: Server, turns: map<RunId, nat>, readable: bool)
    requires Anchored(c, server) && Remembered(c, server, turns) && c.conversation.Some?
    ensures Remembered(DoReconnect(c, c.conversation.value, readable), server, turns)
  {
    var conversation := c.conversation.value;
    assert conversation in c.snapshots ==> Newest(c.desk, server, c.snapshots, turns, c.snapshots[conversation].run);
    RemembersStill(c, DoReconnect(c, conversation, readable), server, turns);
  }

  lemma RemembersStatus(c: Client, server: Server, turns: map<RunId, nat>, a: Action)
    requires InTurn(server, turns) && Anchored(c, server) && Remembered(c, server, turns)
    requires a.StatusRead? && Enabled(c, server, a)
    ensures Remembered(Move(c, server, a), server, turns)
  {
    var p, c1 := c.pending[a.call], Move(c, server, a);
    EnsuredHistory(c.desk, p.run, a.adopted, a.now);
    if !CurrentCall(c, p) || a.status == Live {
      RemembersStill(c, c1, server, turns);
    } else {
      RemembersClosed(c, c1, server, turns, p.run);
    }
  }

  /** The tracked run is over, and its snapshot is cleared. */
  lemma RemembersClosed(c: Client, c1: Client, server: Server, turns: map<RunId, nat>, r: RunId)
    requires InTurn(server, turns) && Anchored(c, server) && Remembered(c, server, turns) && c.gate.runId == Some(r)
    requires c1.snapshots == c.snapshots - {server.home[r]} && c1.gate.runId == None
    requires c1.desk.passed == c.desk.passed && c1.desk.ended == c.desk.ended + {r}
    ensures Remembered(c1, server, turns)
  {
    assert forall q: RunId :: c1.desk.Passed(q) == c.desk.Passed(q);
    KeptThrough(c.desk, c1.desk, server, c.snapshots, c1.snapshots, turns, r);
  }

  lemma NextIsElsewhere(d: Desk, d1: Desk, server: Server, snapshots: map<Conversation, Snapshot>,
                        snapshots1: map<Conversation, Snapshot>, r: RunId, e: LogEvent)
    requires r in server.home && d1.passed == d.passed[r := d.Passed(r) + [e]]
    requires d1.ended == if e.payload.RunEnd? then d.ended + {r} else d.ended
    requires if e.payload.RunEnd? then snapshots1 == snapshots - {server.home[r]}
             else exists last :: snapshots1 == snapshots[server.home[r] := Snapshot(r, last)]
    ensures Elsewhere(d, d1, server, snapshots, snapshots1, r) && Heard(d1, server, snapshots1, r)
    ensures r in d1.ended || server.home[r] in snapshots1
  {
    assert d1.Passed(r) == d.Passed(r) + [e];
  }

  lemma RemembersPassed(c: Client, server: Server, turns: map<RunId, nat>, r: RunId, provided: Option<SessionId>, now: int)
    requires InTurn(server, turns) && Steady(c, server) && Anchored(c, server) && Remembered(c, server, turns)
    requires c.gate.runId == Some(r) && |c.desk.Passed(r)| < |server.Log(r)| && (provided.Some? || c.desk.active.Some?)
    ensures Remembered(Receive(c, r, server.Log(r)[|c.desk.Passed(r)|], provided, true, now), server, turns)
  {
    var e := server.Log(r)[|c.desk.Passed(r)|];
    assert c.gate.Passes(r, e);
    var c1 := Receive(c, r, e, provided, true, now);
    ReceivedHistory(c, r, e, provided, true, now);
    PassedSnapshots(c, server, r, provided, now);
    NextIsElsewhere(c.desk, c1.desk, server, c.snapshots, c1.snapshots, r, e);
    KeptThrough(c.desk, c1.desk, server, c.snapshots, c1.snapshots, turns, r);
  }

  lemma RemembersDeliver(c: Client, server: Server, turns: map<RunId, nat>, i: nat, now: int)
    requires InTurn(server, turns) && Steady(c, server) && Seated(c, server) && Anchored(c, server)
    requires Remembered(c, server, turns)
    requires Enabled(c, server, Deliver(i, true, now)) && Orderly(c, server, Deliver(i, true, now))
    ensures Remembered(DoDeliver(c, server, i, true, now), server, turns)
  {
    var s := c.sources[i];
    assert SourceOk(c, s) && StreamOk(c, s);
    if !Current(c, s) {
      RemembersStill(c, DoDeliver(c, server, i, true, now), server, turns);
    } else {
      CurrentServes(c, s);
      var c1 := Receive(c, s.run, server.Log(s.run)[s.next], s.provided, true, now);
      if s.next == |c.desk.Passed(s.run)| {
        RemembersPassed(c, server, turns, s.run, s.provided, now);
      } else {
        assert c1 == c;
      }
      RemembersStill(c1, DoDeliver(c, server, i, true, now), server, turns);
    }
  }

  lemma FriendlyRemembers(c: Client, server: Server, turns: map<RunId, nat>, a: Action)
    requires InTurn(server, turns) && Steady(c, server) && Seated(c, server) && Anchored(c, server)
    requires Remembered(c, server, turns) && Enabled(c, server, a) && Friendly(c, server, turns, a)
    ensures Remembered(Move(c, server, a), server, turns)
  {
    match a
    case Answered(i, r, _) => RemembersAnswered(c, server, turns, i, r);
    case Reconnect(readable) => RemembersReconnect(c, server, turns, readable);
    case Discovered(i, r) => RemembersStill(c, DoDiscovered(c, i, r), server, turns);
    case StatusRead(_, _, _, _, _) => RemembersStatus(c, server, turns, a);
    case Deliver(i, works, now) => RemembersDeliver(c, server, turns, i, now);
    case Ask => RemembersStill(c, DoAsk(c), server, turns);
    case Go(to) => RemembersStill(c, DoGo(c, to), server, turns);
    case Resubscribe => RemembersStill(c, Move(c, server, a), server, turns);
    case GiveUp(_) => RemembersStill(c, Move(c, server, a), server, turns);
    case Drop(_) => RemembersStill(c, Move(c, server, a), server, turns);
    case Reload => RemembersStill(c, DoReload(c), server, turns);
  }

  // ---------------------------------------------------------------- whole runs

  predicate FriendlyRun(c: Client, server: Server, turns: map<RunId, nat>, actions: seq<Action>)
    decreases |actions|
  {
    actions == []
    || (Enabled(c, server, actions[0]) && Friendly(c, server, turns, actions[0])
        && FriendlyRun(Move(c, server, actions[0]), server, turns, actions[1..]))
  }

  lemma {:induction false} FriendlyRunIsTidy(c: Client, server: Server, turns: map<RunId, nat>, actions: seq<Action>)
    requires WellFormed(server) && InTurn(server, turns)
    requires Steady(c, server) && Seated(c, server) && Anchored(c, server) && Remembered(c, server, turns)
    requires FriendlyRun(c, server, turns, actions)
    ensures TidyRun(c, server, actions)
    decreases |actions|
  {
    if actions != [] {
      FriendlyIsOrderly(c, server, turns, actions[0]);
      TidyKeeps(c, server, actions[0]);
      FriendlyAnchors(c, server, turns, actions[0]);
      FriendlyRemembers(c, server, turns, actions[0]);
      FriendlyRunIsTidy(Move(c, server, actions[0]), server, turns, actions[1..]);
    }
  }

  lemma NewClientRemembers(server: Server, turns: map<RunId, nat>)
    ensures Anchored(NEW_CLIENT, server) && Remembered(NEW_CLIENT, server, turns)
  {
  }

  /** Conversations may be left and re-entered and the page may be reloaded at any time: with working
      storage, and a server that names the newest run of a conversation, every log passes exactly once. */
  lemma {:induction false} SnapshotsSuffice(server: Server, turns: map<RunId, nat>, actions: seq<Action>, r: RunId)
    requires WellFormed(server) && InTurn(server, turns) && FriendlyRun(NEW_CLIENT, server, turns, actions)
    ensures TidyRun(NEW_CLIENT, server, actions) && SafeRun(NEW_CLIENT, server, actions)
    ensures Outcome(NEW_CLIENT, server, actions).desk.Passed(r) <= server.Log(r)
  {
    NewClientIsSeated(server);
    NewClientRemembers(server, turns);
    FriendlyRunIsTidy(NEW_CLIENT, server, turns, actions);
    TidyRunContinues(NEW_CLIENT, server, actions);
    ExactlyOnce(server, actions, r);
  }
}
