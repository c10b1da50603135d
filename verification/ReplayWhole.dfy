/** When one message shows all of a run that its page received: exactly as long as each event reaches the
    session that got the others, which is lost when a second session is opened beside a start; and what a
    page shows after a reload.
  */
module ReplayWhole {
  import opened Options
  import opened ChatParts
  import opened Timeline
  import opened Replay
  import opened ReplayTheorems
  import opened ReplayTracking
  import opened ReplaySessions
  import opened ReplayTidy

  // ---------------------------------------------------------------- one session a run

  /** The session served last got everything that passed of the run in this page. */
  predicate WholeOk(d: Desk, r: RunId) {
    && |d.Before(r)| <= |d.Passed(r)| && (r in d.served <==> |d.Before(r)| < |d.Passed(r)|)
    && (r in d.served ==> d.Seat(d.served[r]).from == |d.Before(r)|)
  }

  ghost predicate AllWhole(d: Desk) {
    forall r: RunId :: WholeOk(d, r)
  }

  /** There is a session for the run's next event: the one served last, or at first an empty one. */
  predicate Collects(d: Desk, target: Option<SessionId>, r: RunId) {
    target.Some? && if r in d.served then d.served[r] == target.value else d.Seat(target.value).got == []
  }

  predicate Gathers(c: Client, server: Server, a: Action)
    requires Enabled(c, server, a)
  {
    Continues(c, server, a)
    && (a.Deliver? && Passing(c, server, a.source)
        ==> Collects(c.desk, Target(c, c.sources[a.source]), c.sources[a.source].run))
  }

  /** No session that got anything changes where it started. */
  ghost predicate SameFrom(d: Desk, d1: Desk) {
    && d1.passed == d.passed && d1.before == d.before && d1.served == d.served
    && forall u: SessionId :: d.Seat(u).got != [] ==> d1.Seat(u).from == d.Seat(u).from
  }

  /** Nothing passes, and no session changes where it started. */
  lemma WholeStays(d: Desk, d1: Desk, server: Server)
    requires SeatsOk(d, server) && AllWhole(d) && SameFrom(d, d1)
    ensures AllWhole(d1)
  {
    forall r: RunId
      ensures WholeOk(d1, r)
    {
      assert WholeOk(d, r) && ServedOk(d, r) && d1.Passed(r) == d.Passed(r) && d1.Before(r) == d.Before(r);
    }
  }

  lemma EnsuredFrom(d: Desk, r: RunId, adopted: seq<Part>, now: int)
    requires DeskPlaced(d)
    ensures SameFrom(d, d.Ensured(r, adopted, now))
  {
    EnsuredHistory(d, r, adopted, now);
  }

  lemma TouchedFrom(d: Desk, d1: Desk, step: Step, now: int)
    requires SameFrom(d, d1)
    ensures SameFrom(d, d1.Touched(step, now))
  {
    assert forall u: SessionId :: d1.Touched(step, now).Seat(u).from == d1.Seat(u).from;
  }

  lemma ClosedFrom(d: Desk, d1: Desk, r: RunId)
    requires SameFrom(d, d1)
    ensures SameFrom(d, d1.Closed(r))
  {
    assert forall u: SessionId :: d1.Closed(r).Seat(u) == d1.Seat(u);
  }

  lemma StatusWhole(c: Client, server: Server, a: Action)
    requires SeatsOk(c.desk, server) && Placed(c) && AllWhole(c.desk) && a.StatusRead? && Enabled(c, server, a)
    ensures AllWhole(Move(c, server, a).desk)
  {
    var p := c.pending[a.call];
    var d := c.desk.Ensured(p.run, a.adopted, a.now);
    EnsuredFrom(c.desk, p.run, a.adopted, a.now);
    if a.asking.Some? { TouchedFrom(c.desk, d, Rehydrate(a.asking.value.0, a.asking.value.1), a.now); }
    TouchedFrom(c.desk, d, Failure, a.now);
    ClosedFrom(c.desk, if a.status == Failed then d.Touched(Failure, a.now) else c.desk, p.run);
    WholeStays(c.desk, Move(c, server, a).desk, server);
  }

  lemma NewPageIsWhole(d: Desk)
    ensures AllWhole(d.Reloaded())
  {
    assert forall r: RunId :: d.Reloaded().Before(r) == d.Reloaded().Passed(r);
  }

  /** Handing the next event over keeps the run whole if and only if the session collects it. */
  lemma HandedWhole(d: Desk, d1: Desk, server: Server, id: SessionId, r: RunId, now: int)
    requires SeatsOk(d, server) && AllWhole(d) && HandedTo(d, d1, server, id, r, now) && Takes(d, Some(id), r)
    ensures AllWhole(d1) <==> Collects(d, Some(id), r)
  {
    assert ServedOk(d, r) && WholeOk(d, r) && SessionOk(d, server, id);
    assert forall q: RunId :: d1.Before(q) == d.Before(q);
    if Collects(d, Some(id), r) {
      forall q: RunId
        ensures WholeOk(d1, q)
      {
        assert WholeOk(d, q) && ServedOk(d, q);
        assert q != r && q in d.served ==> d.served[q] != id;
      }
    } else {
      assert !WholeOk(d1, r);
    }
  }

  /** An event that reaches no session makes its run incomplete. */
  lemma UnheardWhole(d: Desk, d1: Desk, r: RunId)
    requires WholeOk(d, r) && d1.before == d.before && d1.served == d.served && |d1.Passed(r)| == |d.Passed(r)| + 1
    requires r !in d.served
    ensures !WholeOk(d1, r)
  {
    assert d1.Before(r) == d.Before(r);
  }

  lemma PassedWhole(c: Client, server: Server, s: EventSource, works: bool, now: int)
    requires WellFormed(server) && SeatsOk(c.desk, server) && AllWhole(c.desk)
    requires s.next == |c.desk.Passed(s.run)| < |server.Log(s.run)| && c.gate.Passes(s.run, server.Log(s.run)[s.next])
    requires Takes(c.desk, Target(c, s), s.run)
    ensures AllWhole(Receive(c, s.run, server.Log(s.run)[s.next], s.provided, works, now).desk)
            <==> Collects(c.desk, Target(c, s), s.run)
  {
    var r, e, target := s.run, server.Log(s.run)[s.next], Target(c, s);
    var d1 := c.desk.Received(target, r, e, now);
    RecordedFields(c, c.gate.Marked(r, e), d1, e.payload, target.Some?, works);
    if target.Some? {
      HandedFields(c.desk, server, target.value, r, now);
      HandedWhole(c.desk, d1, server, target.value, r, now);
    } else {
      ReceivedDesk(c.desk, None, r, e, now);
      assert WholeOk(c.desk, r);
      UnheardWhole(c.desk, d1, r);
    }
  }

  lemma DeliverWhole(c: Client, server: Server, i: nat, works: bool, now: int)
    requires WellFormed(server) && Good(c, server) && SeatsOk(c.desk, server) && AllWhole(c.desk)
    requires Enabled(c, server, Deliver(i, works, now)) && Safe(c, server, Deliver(i, works, now))
    requires Continues(c, server, Deliver(i, works, now))
    ensures AllWhole(DoDeliver(c, server, i, works, now).desk) <==> Gathers(c, server, Deliver(i, works, now))
  {
    var s := c.sources[i];
    assert SourceOk(c, s);
    if Passing(c, server, i) {
      assert s.next == |c.desk.Passed(s.run)|;
      PassedWhole(c, server, s, works, now);
    } else {
      assert DoDeliver(c, server, i, works, now).desk == c.desk;
    }
  }

  /** An action keeps each run whole in one session if and only if it gathers. */
  lemma MoveWhole(c: Client, server: Server, a: Action)
    requires WellFormed(server) && Good(c, server) && SeatsOk(c.desk, server) && Placed(c) && AllWhole(c.desk)
    requires Enabled(c, server, a) && Safe(c, server, a)
    ensures SeatsOk(Move(c, server, a).desk, server) && AllWhole(Move(c, server, a).desk) <==> Gathers(c, server, a)
  {
    MoveSeats(c, server, a);
    match a
    case Answered(i, r, works) =>
      AnsweredFields(c, server, i, r, works);
      WholeStays(c.desk, c.desk.Named(c.pending[i].session, r), server);
    case StatusRead(_, _, _, _, _) => StatusWhole(c, server, a);
    case Deliver(i, works, now) => if Continues(c, server, a) { DeliverWhole(c, server, i, works, now); }
    case Reload => NewPageIsWhole(c.desk);
    case _ => WholeStays(c.desk, Move(c, server, a).desk, server);
  }

  // ---------------------------------------------------------------- whole runs

  predicate GatheringRun(c: Client, server: Server, actions: seq<Action>)
    decreases |actions|
  {
    actions == []
    || (Enabled(c, server, actions[0]) && Safe(c, server, actions[0]) && Gathers(c, server, actions[0])
        && GatheringRun(Move(c, server, actions[0]), server, actions[1..]))
  }

  ghost predicate Whole(c: Client, server: Server) {
    Good(c, server) && SeatsOk(c.desk, server) && Placed(c) && AllWhole(c.desk)
  }

  lemma {:induction false} GatheringRunKeeps(c: Client, server: Server, actions: seq<Action>)
    requires WellFormed(server) && Whole(c, server) && GatheringRun(c, server, actions)
    ensures SafeRun(c, server, actions) && Whole(Outcome(c, server, actions), server)
    decreases |actions|
  {
    if actions != [] {
      MoveKeeps(c, server, actions[0]);
      MoveWhole(c, server, actions[0]);
      MovePlaces(c, server, actions[0]);
      GatheringRunKeeps(Move(c, server, actions[0]), server, actions[1..]);
    }
  }

  ghost predicate WholeRun(c: Client, server: Server, actions: seq<Action>)
    decreases |actions|
  {
    Whole(c, server)
    && (actions == [] || (Enabled(c, server, actions[0]) && WholeRun(Move(c, server, actions[0]), server, actions[1..])))
  }

  /** The schedules that gather are exactly those along which each run is whole in one session. */
  lemma {:induction false} GatheringRunsAreWhole(c: Client, server: Server, actions: seq<Action>)
    requires WellFormed(server) && Whole(c, server)
    ensures GatheringRun(c, server, actions) <==> WholeRun(c, server, actions)
    decreases |actions|
  {
    if actions != [] && Enabled(c, server, actions[0]) {
      MoveKeeps(c, server, actions[0]);
      MovePlaces(c, server, actions[0]);
      if Safe(c, server, actions[0]) {
        MoveWhole(c, server, actions[0]);
        if Gathers(c, server, actions[0]) {
          GatheringRunsAreWhole(Move(c, server, actions[0]), server, actions[1..]);
        }
      }
    }
  }

  lemma NewClientIsWhole(server: Server)
    ensures Whole(NEW_CLIENT, server)
  {
    NewClientSeats(server);
    NewPageIsWhole(NO_SESSIONS);
    assert NO_SESSIONS.Reloaded() == NO_SESSIONS;
  }

  lemma ReceiveBefore(c: Client, r: RunId, e: LogEvent, provided: Option<SessionId>, works: bool, now: int)
    ensures Receive(c, r, e, provided, works, now).desk.before == c.desk.before
  {
    if c.gate.Passes(r, e) { ReceivedHistory(c, r, e, provided, works, now); }
  }

  lemma MoveBefore(c: Client, server: Server, a: Action)
    requires Enabled(c, server, a) && a != Reload
    ensures Move(c, server, a).desk.before == c.desk.before
  {
    match a
    case StatusRead(i, status, asking, adopted, now) => StatusBefore(c, server, i, status, asking, adopted, now);
    case Deliver(i, works, now) =>
      var s := c.sources[i];
      ReceiveBefore(c, s.run, server.Log(s.run)[s.next], s.provided, works, now);
    case Answered(i, r, works) => AnsweredFields(c, server, i, r, works);
    case _ =>
  }

  lemma StatusBefore(c: Client, server: Server, i: nat, status: RunStatus, asking: Option<(string, Payload)>,
                     adopted: seq<Part>, now: int)
    requires i < |c.pending| && c.pending[i].ReadingStatus?
    ensures DoStatus(c, server, i, status, asking, adopted, now).desk.before == c.desk.before
  {
    EnsuredHistory(c.desk, c.pending[i].run, adopted, now);
  }

  lemma {:induction false} PageBefore(c: Client, server: Server, actions: seq<Action>)
    requires SafeRun(c, server, actions) && Reload !in actions
    ensures Outcome(c, server, actions).desk.before == c.desk.before
    decreases |actions|
  {
    if actions != [] {
      MoveBefore(c, server, actions[0]);
      PageBefore(Move(c, server, actions[0]), server, actions[1..]);
    }
  }

  /** The session a run was handed to shows the text its message had and then all that passed from
      event `n` on. */
  predicate ShowsFrom(d: Desk, server: Server, r: RunId, n: nat, streaming: bool) {
    n < |d.Passed(r)| ==>
      r in d.served && ShowsSlice(d.Seat(d.served[r]), server.Log(r), n, |d.Passed(r)|, streaming)
  }

  lemma {:induction false} PageText(c: Client, server: Server, actions: seq<Action>, r: RunId, streaming: bool)
    requires WellFormed(server) && Whole(c, server) && GatheringRun(c, server, actions) && Reload !in actions
    ensures SafeRun(c, server, actions)
    ensures ShowsFrom(Outcome(c, server, actions).desk, server, r, |c.desk.Before(r)|, streaming)
  {
    GatheringRunKeeps(c, server, actions);
    PageBefore(c, server, actions);
    WholeText(Outcome(c, server, actions).desk, server, r, streaming);
    assert Outcome(c, server, actions).desk.Before(r) == c.desk.Before(r);
  }

  lemma WholeText(d: Desk, server: Server, r: RunId, streaming: bool)
    requires SeatsOk(d, server) && AllWhole(d)
    ensures ShowsFrom(d, server, r, |d.Before(r)|, streaming)
  {
    assert WholeOk(d, r) && ServedOk(d, r);
    if r in d.served {
      assert SessionOk(d, server, d.served[r]);
      PlaceOfStretch(d, server, d.served[r], r);
      SeatText(d, server, d.served[r], r, streaming);
      LastStretch(d, server, r, d.Seat(d.served[r]).from, streaming);
    }
  }

  /** The stretch of the session served last reaches to the end of what passed. */
  lemma LastStretch(d: Desk, server: Server, r: RunId, n: nat, streaming: bool)
    requires r in d.served && n == d.Seat(d.served[r]).from && TextOfStretch(d, server, d.served[r], r, streaming)
    ensures ShowsSlice(d.Seat(d.served[r]), server.Log(r), n, |d.Passed(r)|, streaming)
  {
  }

  /** In the first page, one message shows all that passed of its run, after its end as well. */
  lemma OneMessageShowsAll(server: Server, actions: seq<Action>, r: RunId, streaming: bool)
    requires WellFormed(server) && GatheringRun(NEW_CLIENT, server, actions) && Reload !in actions
    ensures SafeRun(NEW_CLIENT, server, actions)
    ensures ShowsFrom(Outcome(NEW_CLIENT, server, actions).desk, server, r, 0, streaming)
  {
    NewClientIsWhole(server);
    PageText(NEW_CLIENT, server, actions, r, streaming);
    assert NEW_CLIENT.desk.Before(r) == [];
  }

  /** After a reload, at any point of any safe run, one message of the new page shows what it was made
      from and then exactly what passes from there on. */
  lemma NewPageShowsTheRest(c: Client, server: Server, actions: seq<Action>, r: RunId, streaming: bool)
    requires WellFormed(server) && Good(c, server)
    requires GatheringRun(DoReload(c), server, actions) && Reload !in actions
    ensures SafeRun(DoReload(c), server, actions)
    ensures ShowsFrom(Outcome(DoReload(c), server, actions).desk, server, r, |c.desk.Passed(r)|, streaming)
  {
    ReloadKeeps(c, server);
    NewPageSeats(c.desk, server);
    NewPageIsWhole(c.desk);
    PageText(DoReload(c), server, actions, r, streaming);
    assert DoReload(c).desk.Before(r) == c.desk.Passed(r);
  }

  // ---------------------------------------------------------------- undivided schedules

  /** No second session is opened for a run: a started run has none yet, and while the original stream of
      a run is open, a status does not make one. */
  predicate Undivided(c: Client, server: Server, a: Action)
    requires Enabled(c, server, a)
  {
    match a
    case Answered(_, r, _) => forall id :: id in c.desk.book ==> c.desk.book[id].run != Some(r)
    case StatusRead(i, status, _, _, _) =>
      var r := c.pending[i].run;
      CurrentCall(c, c.pending[i]) && status == Live && r !in c.desk.registry
      ==> forall s :: s in c.sources ==> !OriginalOf(c, s, r)
    case _ => true
  }

  /** The registered session of a run with an open original stream is that stream's, and so is the active one. */
  predicate OriginalFirst(c: Client, s: EventSource) {
    s.provided.Some? && s.stamp == c.counters.epoch && s.run !in c.desk.ended ==>
      && (s.run in c.desk.registry ==> Some(c.desk.registry[s.run]) == s.provided)
      && (c.desk.ActiveRun() == Some(s.run) ==> c.desk.active == s.provided)
  }

  predicate OriginalsFirst(c: Client) {
    forall s :: s in c.sources ==> OriginalFirst(c, s)
  }

  /** Then each event reaches the session that got the others. */
  lemma UndividedGathers(c: Client, server: Server, a: Action)
    requires Steady(c, server) && Seated(c, server) && OriginalsFirst(c)
    requires Enabled(c, server, a) && Orderly(c, server, a)
    ensures Gathers(c, server, a)
  {
    TidyContinues(c, server, a);
    if a.Deliver? && Passing(c, server, a.source) {
      var s := c.sources[a.source];
      CurrentServes(c, s);
      assert StreamOk(c, s) && OriginalFirst(c, s) && RegistryOk(c.desk, s.run);
    }
  }

  /** Original streams are outdated, or registry and active session stay or are left. */
  lemma OriginalsStay(c: Client, c1: Client)
    requires SourcesOk(c) && OriginalsFirst(c) && c.desk.ended <= c1.desk.ended
    requires forall s :: s in c1.sources ==> s in c.sources || s.provided.None?
    requires c.counters.epoch < c1.counters.epoch
             || (c.counters.epoch == c1.counters.epoch && c1.desk.registry == c.desk.registry
                 && (c1.desk.active == None || c1.desk.ActiveRun() == None
                     || (c1.desk.active == c.desk.active && c1.desk.ActiveRun() == c.desk.ActiveRun())))
    ensures OriginalsFirst(c1)
  {
    forall s | s in c1.sources
      ensures OriginalFirst(c1, s)
    {
      assert s in c.sources ==> OriginalFirst(c, s) && SourceOk(c, s);
    }
  }

  lemma AnsweredFirst(c: Client, server: Server, i: nat, r: RunId, works: bool)
    requires Steady(c, server) && Seated(c, server) && OriginalsFirst(c) && Enabled(c, server, Answered(i, r, works))
    requires Undivided(c, server, Answered(i, r, works))
    ensures OriginalsFirst(DoAnswered(c, server, i, r, works))
  {
    var c1, id := DoAnswered(c, server, i, r, works), c.pending[i].session;
    AnsweredFields(c, server, i, r, works);
    assert RegistryOk(c.desk, r);
    assert forall u: SessionId :: c.desk.Seat(u).run != Some(r);
    assert forall u: SessionId :: u != id ==> c1.desk.Seat(u) == c.desk.Seat(u);
    forall s | s in c1.sources
      ensures OriginalFirst(c1, s)
    {
      if s in c.sources { assert OriginalFirst(c, s) && StreamOk(c, s); }
    }
  }

  /** The ensured session is the one of the open original stream, if there is one. */
  lemma LiveFirst(c: Client, server: Server, r: RunId, asking: Option<(string, Payload)>, adopted: seq<Part>, now: int)
    requires SourcesOk(c) && Tracking(c) && Seated(c, server) && OriginalsFirst(c) && c.gate.runId == Some(r)
    requires r !in c.desk.registry ==> forall s :: s in c.sources ==> !OriginalOf(c, s, r)
    ensures OriginalsFirst(StartSubscription(c.(desk := c.desk.Ensured(r, adopted, now).Asked(asking, now)), server, r))
  {
    var d := c.desk.Ensured(r, adopted, now);
    var d1 := d.Asked(asking, now);
    var c1 := StartSubscription(c.(desk := d1), server, r);
    EnsuredServes(c.desk, server, r, adopted, now);
    EnsuredHistory(c.desk, r, adopted, now);
    assert d1.registry == d.registry && d1.active == d.active && d1.ended == d.ended && d1.ActiveRun() == d.ActiveRun();
    forall s | s in c1.sources
      ensures OriginalFirst(c1, s)
    {
      if s in c.sources {
        assert OriginalFirst(c, s) && OriginalOk(c, s) && !(r !in c.desk.registry && OriginalOf(c, s, r));
      }
    }
  }

  lemma StatusFirst(c: Client, server: Server, a: Action)
    requires Steady(c, server) && Seated(c, server) && OriginalsFirst(c)
    requires a.StatusRead? && Enabled(c, server, a) && Undivided(c, server, a)
    ensures OriginalsFirst(Move(c, server, a))
  {
    var p, c1 := c.pending[a.call], c.(pending := Remove(c.pending, a.call));
    RemoveKeeps(c, server, a.call);
    RemoveTidies(c, a.call);
    OriginalsStay(c, c1);
    assert forall x :: x in c1.pending ==> x in c.pending;
    EnsuredHistory(c.desk, p.run, a.adopted, a.now);
    if CurrentCall(c, p) {
      if a.status == Live {
        assert forall s :: s in c1.sources ==> OriginalOf(c1, s, p.run) == OriginalOf(c, s, p.run);
        LiveFirst(c1, server, p.run, a.asking, a.adopted, a.now);
      } else {
        OriginalsStay(c1, Move(c, server, a));
      }
    }
  }

  /** The session that is handed an event is that of the open original stream, if there is one. */
  lemma HandedFirst(c: Client, c1: Client, server: Server, s: EventSource, id: SessionId)
    requires Tracking(c) && Seated(c, server) && OriginalsFirst(c)
    requires s in c.sources && Current(c, s) && s.run !in c.desk.ended && Target(c, s) == Some(id)
    requires c1.sources == c.sources && c1.counters == c.counters && c.desk.ended <= c1.desk.ended
    requires s.run in c1.desk.ended || (c1.desk.registry == c.desk.registry[s.run := id] && c1.desk.active == Some(id))
    ensures OriginalsFirst(c1)
  {
    forall x | x in c1.sources
      ensures OriginalFirst(c1, x)
    {
      if x.run !in c.desk.ended {
        HandedStream(c, server, s, id, x);
        assert OriginalFirst(c, x) && StreamOk(c, x) && StreamOk(c, s);
      }
    }
  }

  lemma DeliverFirst(c: Client, server: Server, i: nat, works: bool, now: int)
    requires WellFormed(server) && Steady(c, server) && Seated(c, server) && OriginalsFirst(c)
    requires Enabled(c, server, Deliver(i, works, now)) && Orderly(c, server, Deliver(i, works, now))
    ensures OriginalsFirst(DoDeliver(c, server, i, works, now))
  {
    var s := c.sources[i];
    assert SourceOk(c, s);
    if !Current(c, s) {
      OriginalsStay(c, DoDeliver(c, server, i, works, now));
    } else {
      CurrentServes(c, s);
      var c1 := Receive(c, s.run, server.Log(s.run)[s.next], s.provided, works, now);
      if s.next == |c.desk.Passed(s.run)| {
        var e, id := server.Log(s.run)[s.next], Target(c, s).value;
        assert StreamOk(c, s) && c.gate.Passes(s.run, e);
        HandedFields(c.desk, server, id, s.run, now);
        RecordedFields(c, c.gate.Marked(s.run, e), c.desk.Received(Some(id), s.run, e, now), e.payload, true, works);
        HandedFirst(c, c1, server, s, id);
      } else {
        assert c1 == c;
      }
      AdvanceFirst(c1, i);
    }
  }

  lemma AdvanceFirst(c: Client, i: nat)
    requires OriginalsFirst(c) && i < |c.sources|
    ensures OriginalsFirst(c.(sources := c.sources[i := c.sources[i].(next := c.sources[i].next + 1)]))
  {
    var s := c.sources[i];
    var c1 := c.(sources := c.sources[i := s.(next := s.next + 1)]);
    forall x | x in c1.sources
      ensures OriginalFirst(c1, x)
    {
      assert s in c.sources && OriginalFirst(c, s);
      assert x in c.sources ==> OriginalFirst(c, x);
    }
  }

  lemma MoveFirst(c: Client, server: Server, a: Action)
    requires WellFormed(server) && Steady(c, server) && Seated(c, server) && OriginalsFirst(c)
    requires Enabled(c, server, a) && Orderly(c, server, a) && Undivided(c, server, a)
    ensures OriginalsFirst(Move(c, server, a))
  {
    match a
    case Answered(i, r, works) => AnsweredFirst(c, server, i, r, works);
    case StatusRead(_, _, _, _, _) => StatusFirst(c, server, a);
    case Deliver(i, works, now) => DeliverFirst(c, server, i, works, now);
    case Reload =>
    case _ => OriginalsStay(c, Move(c, server, a));
  }

  predicate UndividedRun(c: Client, server: Server, actions: seq<Action>)
    decreases |actions|
  {
    actions == []
    || (Enabled(c, server, actions[0]) && Orderly(c, server, actions[0]) && Tidy(c, server, actions[0])
        && Undivided(c, server, actions[0]) && UndividedRun(Move(c, server, actions[0]), server, actions[1..]))
  }

  /** Undivided schedules gather all along, so one message shows all of them. */
  lemma {:induction false} UndividedRunGathers(c: Client, server: Server, actions: seq<Action>)
    requires WellFormed(server) && Steady(c, server) && Seated(c, server) && OriginalsFirst(c)
    requires UndividedRun(c, server, actions)
    ensures GatheringRun(c, server, actions)
    decreases |actions|
  {
    if actions != [] {
      TidyKeeps(c, server, actions[0]);
      UndividedGathers(c, server, actions[0]);
      MoveFirst(c, server, actions[0]);
      UndividedRunGathers(Move(c, server, actions[0]), server, actions[1..]);
    }
  }

  // ---------------------------------------------------------------- two sessions

  /** The original stream `i` and the subscription `j` of one run are both about to deliver its next event. */
  predicate Meeting(c: Client, server: Server, i: nat, j: nat) {
    && i < |c.sources| && j < |c.sources| && c.sources[i].provided.Some? && c.sources[j].provided.None?
    && c.sources[i].run == c.sources[j].run && Current(c, c.sources[i]) && Current(c, c.sources[j])
    && (var r, n := c.sources[i].run, c.sources[i].next;
        && r !in c.desk.ended && n == c.sources[j].next == |c.desk.Passed(r)|
        && n + 1 < |server.Log(r)| && !server.Log(r)[n].payload.RunEnd?)
  }

  /** A current stream delivers the next event of its run. */
  lemma FreshDelivery(c: Client, server: Server, k: nat, id: SessionId, works: bool, now: int)
    requires WellFormed(server) && Steady(c, server) && Seated(c, server) && k < |c.sources|
    requires Current(c, c.sources[k]) && c.sources[k].run !in c.desk.ended && Target(c, c.sources[k]) == Some(id)
    requires c.sources[k].next == |c.desk.Passed(c.sources[k].run)| < |server.Log(c.sources[k].run)|
    ensures var s, c1 := c.sources[k], DoDeliver(c, server, k, works, now);
            var e := server.Log(s.run)[s.next];
            && Steady(c1, server) && Seated(c1, server) && c1.counters == c.counters
            && c1.desk.Seat(id).got == c.desk.Seat(id).got + [e]
            && (forall u: SessionId :: u != id ==> c1.desk.Seat(u) == c.desk.Seat(u))
            && |c1.desk.Passed(s.run)| == s.next + 1 && c1.sources == c.sources[k := s.(next := s.next + 1)]
            && (!e.payload.RunEnd? ==> c1.desk.ended == c.desk.ended && c1.gate.runId == Some(s.run))
  {
    CurrentServes(c, c.sources[k]);
    TidyKeeps(c, server, Deliver(k, works, now));
    DeliveryFields(c, server, k, id, works, now);
  }

  lemma DeliveryFields(c: Client, server: Server, k: nat, id: SessionId, works: bool, now: int)
    requires GateOk(c, server) && k < |c.sources| && c.gate.runId == Some(c.sources[k].run)
    requires Current(c, c.sources[k]) && Target(c, c.sources[k]) == Some(id)
    requires c.sources[k].next == |c.desk.Passed(c.sources[k].run)| < |server.Log(c.sources[k].run)|
    ensures var s, c1 := c.sources[k], DoDeliver(c, server, k, works, now);
            var e := server.Log(s.run)[s.next];
            && c1.counters == c.counters && c1.desk.Seat(id).got == c.desk.Seat(id).got + [e]
            && (forall u: SessionId :: u != id ==> c1.desk.Seat(u) == c.desk.Seat(u))
            && |c1.desk.Passed(s.run)| == s.next + 1 && c1.sources == c.sources[k := s.(next := s.next + 1)]
            && (!e.payload.RunEnd? ==> c1.desk.ended == c.desk.ended && c1.gate.runId == Some(s.run))
  {
    var s := c.sources[k];
    var r, e := s.run, server.Log(s.run)[s.next];
    assert c.gate.Passes(r, e);
    HandedFields(c.desk, server, id, r, now);
    RecordedFields(c, c.gate.Marked(r, e), c.desk.Received(Some(id), r, e, now), e.payload, true, works);
  }

  /** An event that passed before does nothing but move the stream. */
  lemma StaleDelivery(c: Client, server: Server, k: nat, works: bool, now: int)
    requires WellFormed(server) && Steady(c, server) && Seated(c, server) && k < |c.sources|
    requires Current(c, c.sources[k]) && c.sources[k].run !in c.desk.ended
    requires c.sources[k].next < |c.desk.Passed(c.sources[k].run)| <= |server.Log(c.sources[k].run)|
    ensures var s, c1 := c.sources[k], DoDeliver(c, server, k, works, now);
            c1 == c.(sources := c.sources[k := s.(next := s.next + 1)]) && Steady(c1, server) && Seated(c1, server)
  {
    var s := c.sources[k];
    CurrentServes(c, s);
    assert !c.gate.Passes(s.run, server.Log(s.run)[s.next]);
    TidyKeeps(c, server, Deliver(k, works, now));
  }

  /** The original stream `i` is one event behind. */
  predicate Lagging(c: Client, server: Server, i: nat) {
    && i < |c.sources| && c.sources[i].provided.Some? && Current(c, c.sources[i]) && c.sources[i].run !in c.desk.ended
    && c.sources[i].next + 1 == |c.desk.Passed(c.sources[i].run)| < |server.Log(c.sources[i].run)|
  }

  function Twice(c: Client, server: Server, i: nat, works: bool, now: int): Client
    requires WellFormed(server) && Steady(c, server) && Seated(c, server) && Lagging(c, server, i)
  {
    StaleDelivery(c, server, i, works, now);
    DoDeliver(DoDeliver(c, server, i, works, now), server, i, works, now)
  }

  lemma LaggingDeliveries(c: Client, server: Server, i: nat, works: bool, now: int)
    requires WellFormed(server) && Steady(c, server) && Seated(c, server) && Lagging(c, server, i)
    ensures var s := c.sources[i];
            Twice(c, server, i, works, now).desk.Seat(s.provided.value).got
            == c.desk.Seat(s.provided.value).got + [server.Log(s.run)[s.next + 1]]
  {
    var s := c.sources[i];
    StaleDelivery(c, server, i, works, now);
    var c1 := DoDeliver(c, server, i, works, now);
    assert c1.sources[i] == s.(next := s.next + 1) && c1.desk == c.desk;
    FreshDelivery(c1, server, i, s.provided.value, works, now);
  }

  lemma FirstOfTwo(c: Client, server: Server, i: nat, j: nat, works: bool, now: int)
    requires WellFormed(server) && Steady(c, server) && Seated(c, server) && Meeting(c, server, i, j)
    ensures var r, n, id, c1 := c.sources[i].run, c.sources[i].next, c.sources[i].provided.value, DoDeliver(c, server, j, works, now);
            && Steady(c1, server) && Seated(c1, server) && Lagging(c1, server, i) && c1.sources[i] == c.sources[i]
            && c1.desk.Seat(id).got
               == (if c.desk.active == Some(id) then c.desk.Seat(id).got + [server.Log(r)[n]] else c.desk.Seat(id).got)
  {
    assert StreamOk(c, c.sources[j]);
    FreshDelivery(c, server, j, c.desk.active.value, works, now);
  }

  /** The subscription delivers the next event, then the original stream the same and the one after. */
  function Met(c: Client, server: Server, i: nat, j: nat, works: bool, now: int): Client
    requires WellFormed(server) && Steady(c, server) && Seated(c, server) && Meeting(c, server, i, j)
  {
    FirstOfTwo(c, server, i, j, works, now);
    Twice(DoDeliver(c, server, j, works, now), server, i, works, now)
  }

  /** Both events reach the original stream's message if and only if its session is the active one. */
  lemma MessageIsSplit(c: Client, server: Server, i: nat, j: nat, works: bool, now: int)
    requires WellFormed(server) && Steady(c, server) && Seated(c, server) && Meeting(c, server, i, j)
    ensures var r, n, id := c.sources[i].run, c.sources[i].next, c.sources[i].provided.value;
            var log, got, after := server.Log(r), c.desk.Seat(id).got, Met(c, server, i, j, works, now).desk.Seat(id).got;
            && after == (if c.desk.active == Some(id) then got + [log[n], log[n + 1]] else got + [log[n + 1]])
            && (after == got + [log[n], log[n + 1]] <==> c.desk.active == c.sources[i].provided)
  {
    FirstOfTwo(c, server, i, j, works, now);
    LaggingDeliveries(DoDeliver(c, server, j, works, now), server, i, works, now);
    var r, n, id := c.sources[i].run, c.sources[i].next, c.sources[i].provided.value;
    OneOrTwo(c.desk.Seat(id).got, server.Log(r)[n], server.Log(r)[n + 1], c.desk.active == Some(id),
             Met(c, server, i, j, works, now).desk.Seat(id).got);
  }

  lemma OneOrTwo(got: seq<LogEvent>, a: LogEvent, b: LogEvent, both: bool, after: seq<LogEvent>)
    requires after == (if both then got + [a] else got) + [b]
    ensures after == (if both then got + [a, b] else got + [b]) && (after == got + [a, b] <==> both)
  {
    assert got + [a] + [b] == got + [a, b];
    assert |got + [b]| != |got + [a, b]|;
  }
}
