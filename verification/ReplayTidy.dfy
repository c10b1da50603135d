/** What keeps events with their sessions: along tidy schedules every current stream of a live run reaches a
    session that takes its events, and so every session gets one stretch of its run's log.
  */
module ReplayTidy {
  import opened Options
  import opened ChatParts
  import opened Timeline
  import opened StreamInvariants
  import opened StreamTheorems
  import opened Replay
  import opened ReplayTheorems
  import opened ReplayTracking
  import opened ReplaySessions

  // ---------------------------------------------------------------- the invariant

  /** The registered session is of its run, and of a live run it is the one served last. */
  predicate RegistryOk(d: Desk, r: RunId) {
    && (r in d.registry ==> d.Seat(d.registry[r]).run == Some(r))
    && (r in d.served && r !in d.ended ==> r in d.registry && d.registry[r] == d.served[r])
  }

  /** The active session of a live run is the registered one, if there is one. */
  predicate ActiveOk(d: Desk) {
    d.ActiveRun().Some? && d.ActiveRun().value in d.registry && d.ActiveRun().value !in d.ended
    ==> d.registry[d.ActiveRun().value] == d.active.value
  }

  ghost predicate TidyDesk(d: Desk) {
    (forall r: RunId :: RegistryOk(d, r)) && ActiveOk(d)
  }

  /** Session `id` may be handed the next event of `r`: it is of this run, and if it got events before,
      it got the last one. */
  predicate Serves(d: Desk, id: SessionId, r: RunId) {
    d.Seat(id).run == Some(r) && (d.Seat(id).got != [] ==> r in d.served && d.served[r] == id)
  }

  /** The current streams of a live run reach a session that serves it. */
  predicate StreamOk(c: Client, s: EventSource) {
    s.run !in c.desk.ended ==>
      if s.provided.Some? then
        s.stamp == c.counters.epoch ==> Serves(c.desk, s.provided.value, s.run)
      else
        s.stamp == c.counters.subscriptions ==>
          c.gate.runId == Some(s.run) && c.desk.active.Some? && Serves(c.desk, c.desk.active.value, s.run)
  }

  /** There is one current original stream at most. */
  predicate OneOriginal(sources: seq<EventSource>, epoch: nat) {
    forall s, t :: s in sources && t in sources && s.provided.Some? && t.provided.Some? && s.stamp == t.stamp == epoch
                   ==> s.provided == t.provided
  }

  /** A session that waits for its start is nobody's yet. */
  predicate WaitingOk(d: Desk, pending: seq<Pending>) {
    && (forall i :: 0 <= i < |pending| && pending[i].Starting? ==>
                      pending[i].session in d.book && d.Seat(pending[i].session).run == None)
    && (forall i, j :: 0 <= i < j < |pending| && pending[i].Starting? && pending[j].Starting?
                       ==> pending[i].session != pending[j].session)
  }

  predicate StreamsOk(c: Client) {
    && (forall s :: s in c.sources ==> StreamOk(c, s))
    && OneOriginal(c.sources, c.counters.epoch)
  }

  ghost predicate Tidied(c: Client) {
    TidyDesk(c.desk) && StreamsOk(c) && WaitingOk(c.desk, c.pending)
  }

  ghost predicate Seated(c: Client, server: Server) {
    SeatsOk(c.desk, server) && Placed(c) && Tidied(c)
  }

  // ---------------------------------------------------------------- tidy actions

  /** A subscription that may still deliver for a live run. */
  predicate Subscribed(c: Client, s: EventSource) {
    s.provided.None? && Current(c, s) && s.run !in c.desk.ended
  }

  /** `sendMessage` refuses while a run is shown as streaming, no start takes the gate from a
      subscription, the answered session is not put beside a registered one, and a retry is for the
      active session. */
  predicate Tidy(c: Client, server: Server, a: Action)
    requires Enabled(c, server, a)
  {
    match a
    case Ask => forall s :: s in c.sources ==> !Subscribed(c, s)
    case Answered(i, r, _) =>
      && (forall s :: s in c.sources && Subscribed(c, s) ==> s.run == r)
      && (r in c.desk.registry ==> c.desk.active != Some(c.pending[i].session))
    case Resubscribe => c.desk.ActiveRun() == c.gate.runId
    case _ => true
  }

  /** Then events continue stretches. */
  lemma TidyContinues(c: Client, server: Server, a: Action)
    requires Steady(c, server) && Seated(c, server) && Enabled(c, server, a) && Orderly(c, server, a)
    ensures Continues(c, server, a)
  {
    match a
    case Answered(i, _, _) => assert SessionOk(c.desk, server, c.pending[i].session);
    case Deliver(i, _, _) => assert StreamOk(c, c.sources[i]);
    case _ =>
  }

  // ---------------------------------------------------------------- actions keep it

  ghost predicate KeepsServing(d: Desk, d1: Desk) {
    forall u: SessionId, q: RunId :: Serves(d, u, q) ==> Serves(d1, u, q)
  }

  /** Streams are outdated, or reach the same sessions. */
  lemma StreamsKeep(c: Client, c1: Client)
    requires SourcesOk(c) && StreamsOk(c) && (forall s :: s in c1.sources ==> s in c.sources)
    requires c.desk.ended <= c1.desk.ended
    requires c.counters.epoch < c1.counters.epoch
             || (c.counters.epoch == c1.counters.epoch && KeepsServing(c.desk, c1.desk))
    requires c.counters.subscriptions < c1.counters.subscriptions
             || (c.counters.subscriptions == c1.counters.subscriptions && KeepsServing(c.desk, c1.desk)
                 && (c.gate.runId == None || (c1.gate.runId == c.gate.runId && c1.desk.active == c.desk.active)))
    ensures StreamsOk(c1)
  {
    forall s | s in c1.sources
      ensures StreamOk(c1, s)
    {
      assert SourceOk(c, s) && StreamOk(c, s);
    }
    forall s | s in c1.sources
      ensures SourceOk(c, s)
    {
    }
  }

  lemma FewerStreams(c: Client, c1: Client)
    requires SourcesOk(c) && Tidied(c) && c1.desk == c.desk && c1.gate == c.gate
    requires c1.counters.epoch == c.counters.epoch && c1.counters.subscriptions == c.counters.subscriptions
    requires (forall s :: s in c1.sources ==> s in c.sources) && WaitingOk(c.desk, c1.pending)
    ensures Tidied(c1)
  {
    StreamsKeep(c, c1);
  }

  lemma RemoveWaiting(d: Desk, pending: seq<Pending>, i: nat)
    requires i < |pending| && WaitingOk(d, pending)
    ensures WaitingOk(d, Remove(pending, i))
    ensures pending[i].Starting? ==>
              forall p :: p in Remove(pending, i) && p.Starting? ==> p.session != pending[i].session
  {
    var rest := Remove(pending, i);
    forall k | 0 <= k < |rest|
      ensures rest[k] == pending[if k < i then k else k + 1]
    {
    }
  }

  /** Sessions, registry and ends are the same, and the active session is left or stays. */
  lemma SameTidyDesk(d: Desk, d1: Desk)
    requires TidyDesk(d) && d1.registry == d.registry && d1.served == d.served && d1.ended == d.ended
    requires forall u: SessionId :: d1.Seat(u).run == d.Seat(u).run
    requires d1.active == None || d1.active == d.active
    ensures TidyDesk(d1)
  {
    forall r: RunId
      ensures RegistryOk(d1, r)
    {
      assert RegistryOk(d, r);
    }
  }

  lemma AskTidies(c: Client, server: Server)
    requires Steady(c, server) && Seated(c, server) && Tidy(c, server, Ask)
    ensures Tidied(DoAsk(c))
  {
    var c1 := DoAsk(c);
    assert c.desk.made !in c.desk.book && c.desk.Seat(c.desk.made) == NEW_SESSION;
    assert forall u: SessionId :: c1.desk.Seat(u) == c.desk.Seat(u);
    SameTidyDesk(c.desk, c1.desk.(active := None));
    assert forall r: RunId :: RegistryOk(c1.desk.(active := None), r) == RegistryOk(c1.desk, r);
    forall s | s in c1.sources
      ensures StreamOk(c1, s) && (s.provided.Some? ==> s.stamp != c1.counters.epoch)
    {
      assert SourceOk(c, s) && StreamOk(c, s) && !Subscribed(c, s);
    }
  }

  /** Naming a waiting session disturbs nobody who is served. */
  lemma NamedServes(d: Desk, id: SessionId, r: RunId)
    requires d.Seat(id).run == None && d.Seat(id).got == []
    ensures KeepsServing(d, d.Named(id, r)) && Serves(d.Named(id, r), id, r)
  {
    var d1 := d.Named(id, r);
    assert forall u: SessionId :: u != id ==> d1.Seat(u) == d.Seat(u);
  }

  lemma NamedTidies(d: Desk, server: Server, id: SessionId, r: RunId)
    requires TidyDesk(d) && SeatsOk(d, server) && d.Seat(id).run == None && (r in d.registry ==> d.active != Some(id))
    ensures TidyDesk(d.Named(id, r))
  {
    var d1 := d.Named(id, r);
    assert forall u: SessionId :: u != id ==> d1.Seat(u) == d.Seat(u);
    forall q: RunId
      ensures RegistryOk(d1, q)
    {
      assert RegistryOk(d, q);
    }
  }

  lemma AnsweredTidies(c: Client, server: Server, i: nat, r: RunId, works: bool)
    requires WellFormed(server) && Steady(c, server) && Seated(c, server) && Enabled(c, server, Answered(i, r, works))
    requires Orderly(c, server, Answered(i, r, works)) && Tidy(c, server, Answered(i, r, works))
    ensures Tidied(DoAnswered(c, server, i, r, works))
  {
    var c1, id := DoAnswered(c, server, i, r, works), c.pending[i].session;
    AnsweredFields(c, server, i, r, works);
    assert SessionOk(c.desk, server, id);
    NamedTidies(c.desk, server, id, r);
    NamedServes(c.desk, id, r);
    RemoveWaiting(c.desk, c.pending, i);
    NamedWaiting(c.desk, Remove(c.pending, i), id, r);
    forall s | s in c1.sources
      ensures StreamOk(c1, s)
      ensures s.provided.Some? && s.stamp == c.counters.epoch && s !in c.sources ==> s.provided == Some(id)
      ensures s.provided.Some? && s in c.sources ==> s.stamp != c.pending[i].epoch
    {
      if s in c.sources {
        assert SourceOk(c, s) && StreamOk(c, s) && OriginalOk(c, s);
        assert Subscribed(c, s) ==> s.run == r;
      }
    }
  }

  lemma NamedWaiting(d: Desk, pending: seq<Pending>, id: SessionId, r: RunId)
    requires WaitingOk(d, pending) && forall p :: p in pending && p.Starting? ==> p.session != id
    ensures WaitingOk(d.Named(id, r), pending)
  {
    var d1 := d.Named(id, r);
    forall i | 0 <= i < |pending| && pending[i].Starting?
      ensures pending[i].session in d1.book && d1.Seat(pending[i].session).run == None
    {
      assert pending[i] in pending;
    }
  }

  lemma GoTidies(c: Client, to: Option<Conversation>)
    requires SourcesOk(c) && Tidied(c)
    ensures Tidied(DoGo(c, to))
  {
    var c1 := DoGo(c, to);
    assert forall u: SessionId :: c1.desk.Seat(u) == c.desk.Seat(u);
    SameTidyDesk(c.desk, c1.desk);
    StreamsKeep(c, c1);
  }

  lemma ResumeTidies(c: Client, server: Server, generation: nat, conversation: Conversation, r: RunId, q: nat)
    requires SourcesOk(c) && Tidied(c) && LiveResume(c, server, r, q)
    ensures Tidied(Resume(c, generation, conversation, r, q))
  {
    StreamsKeep(c, Resume(c, generation, conversation, r, q));
  }

  lemma ReconnectTidies(c: Client, server: Server, readable: bool)
    requires SourcesOk(c) && Tidied(c)
    requires Enabled(c, server, Reconnect(readable)) && Orderly(c, server, Reconnect(readable))
    ensures Tidied(DoReconnect(c, c.conversation.value, readable))
  {
    var conversation, generation := c.conversation.value, c.counters.reconnects + 1;
    var c1, stored := c.(counters := c.counters.(reconnects := generation)), Stored(c, conversation, readable);
    FewerStreams(c, c1);
    SourcesKeep(c, c1);
    if stored.None? {
      FewerStreams(c1, c1.(pending := c.pending + [Discovering(generation, conversation)]));
    } else {
      ResumeTidies(c1, server, generation, conversation, stored.value.run, stored.value.last);
    }
  }

  lemma RemoveTidies(c: Client, i: nat)
    requires SourcesOk(c) && Tidied(c) && i < |c.pending|
    ensures Tidied(c.(pending := Remove(c.pending, i)))
  {
    RemoveWaiting(c.desk, c.pending, i);
    FewerStreams(c, c.(pending := Remove(c.pending, i)));
  }

  lemma DiscoveredTidies(c: Client, server: Server, i: nat, r: RunId)
    requires SourcesOk(c) && Tidied(c)
    requires Enabled(c, server, Discovered(i, r)) && Orderly(c, server, Discovered(i, r))
    ensures Tidied(DoDiscovered(c, i, r))
  {
    var p, c1 := c.pending[i], c.(pending := Remove(c.pending, i));
    RemoveTidies(c, i);
    SourcesKeep(c, c1);
    if c.counters.reconnects == p.generation && c.conversation == Some(p.conversation) {
      ResumeTidies(c1, server, p.generation, p.conversation, r, 0);
    }
  }

  /** The active session of the tracked run serves it. */
  lemma ActiveServes(d: Desk, server: Server, r: RunId)
    requires SeatsOk(d, server) && TidyDesk(d) && d.ActiveRun() == Some(r) && r !in d.ended
    ensures Serves(d, d.active.value, r)
  {
    assert SessionOk(d, server, d.active.value) && RegistryOk(d, r);
  }

  lemma SubscribeTidies(c: Client, server: Server, r: RunId)
    requires SourcesOk(c) && Tidied(c) && c.gate.runId == Some(r) && c.desk.active.Some?
    requires Serves(c.desk, c.desk.active.value, r)
    ensures Tidied(StartSubscription(c, server, r))
  {
    var c1 := StartSubscription(c, server, r);
    forall s | s in c1.sources
      ensures StreamOk(c1, s)
    {
      assert s in c.sources ==> SourceOk(c, s) && StreamOk(c, s);
    }
  }

  // ---------------------------------------------------------------- ensured sessions

  /** `ensureSession` makes the run's session active and registered, and leaves every session what it is to
      its run. */
  lemma EnsuredServes(d: Desk, server: Server, r: RunId, adopted: seq<Part>, now: int)
    requires SeatsOk(d, server) && DeskPlaced(d) && TidyDesk(d) && r !in d.ended
    ensures var d1 := d.Ensured(r, adopted, now);
            && d1.active.Some? && d1.ActiveRun() == Some(r) && d1.registry == d.registry[r := d1.active.value]
            && (r in d.registry ==> d1.active == Some(d.registry[r]))
            && (forall u: SessionId :: u in d.book ==>
                  u in d1.book && d1.Seat(u).run == d.Seat(u).run && d1.Seat(u).got == d.Seat(u).got
                  && d1.Seat(u).from == d.Seat(u).from)
            && (forall u: SessionId :: u !in d.book ==> d1.Seat(u).got == [])
            && KeepsServing(d, d1) && Serves(d1, d1.active.value, r)
  {
    var d1 := d.Ensured(r, adopted, now);
    EnsuredHistory(d, r, adopted, now);
    EnsuredActive(d, r, adopted, now);
    forall u: SessionId
      ensures u in d.book ==>
                u in d1.book && d1.Seat(u).run == d.Seat(u).run && d1.Seat(u).got == d.Seat(u).got
                && d1.Seat(u).from == d.Seat(u).from
      ensures u !in d.book ==> d1.Seat(u).got == []
    {
      EnsuredSession(d, r, adopted, now, u);
    }
    EnsuredSession(d, r, adopted, now, d1.active.value);
    assert RegistryOk(d, r);
    if r in d.registry { assert SessionOk(d, server, d.registry[r]); }
    assert d1.Seat(d1.active.value).run == Some(r);
    forall u: SessionId, q: RunId | Serves(d, u, q)
      ensures Serves(d1, u, q)
    {
      assert u in d.book;
    }
  }

  /** `ensureSession` leaves every session what it is to its run, and a new one belongs to `r`. */
  lemma EnsuredSession(d: Desk, r: RunId, adopted: seq<Part>, now: int, u: SessionId)
    requires DeskPlaced(d)
    ensures var d1 := d.Ensured(r, adopted, now);
            && (u in d.book ==>
                  u in d1.book && d1.Seat(u).run == d.Seat(u).run && d1.Seat(u).got == d.Seat(u).got
                  && d1.Seat(u).from == d.Seat(u).from)
            && (u !in d.book ==> d1.Seat(u).got == [])
            && (r !in d.registry && d1.active == Some(u) ==> u !in d.book && d1.Seat(u).run == Some(r))
  {
    if r !in d.registry {
      assert d.Ensured(r, adopted, now).book
             == d.book[d.made := Session(Some(r), FromParts(adopted, now), JoinText(adopted), 0, [], true)];
    }
  }

  lemma EnsuredActive(d: Desk, r: RunId, adopted: seq<Part>, now: int)
    ensures var d1 := d.Ensured(r, adopted, now);
            && d1.active.Some? && (r in d.registry ==> d1.active == Some(d.registry[r]))
            && d1.registry == d.registry[r := d1.active.value]
  {
  }

  lemma EnsuredTidies(d: Desk, server: Server, r: RunId, adopted: seq<Part>, now: int, pending: seq<Pending>)
    requires SeatsOk(d, server) && DeskPlaced(d) && TidyDesk(d) && r !in d.ended && WaitingOk(d, pending)
    ensures var d1 := d.Ensured(r, adopted, now); TidyDesk(d1) && WaitingOk(d1, pending)
  {
    var d1 := d.Ensured(r, adopted, now);
    EnsuredServes(d, server, r, adopted, now);
    EnsuredHistory(d, r, adopted, now);
    forall q: RunId
      ensures RegistryOk(d1, q)
    {
      assert RegistryOk(d, q) && RegistryOk(d, r);
    }
  }

  lemma TouchedTidies(d: Desk, step: Step, now: int, pending: seq<Pending>)
    requires TidyDesk(d) && WaitingOk(d, pending)
    ensures var d1 := d.Touched(step, now);
            && TidyDesk(d1) && WaitingOk(d1, pending) && KeepsServing(d, d1) && d1.active == d.active
            && d1.passed == d.passed && d1.ended == d.ended
  {
    if d.active.Some? {
      RestatedTidies(d, d.active.value, Do(d.Seat(d.active.value).state, step, now), pending);
    }
  }

  /** A session that shows another state serves the same run. */
  lemma RestatedTidies(d: Desk, id: SessionId, state: State, pending: seq<Pending>)
    requires TidyDesk(d) && WaitingOk(d, pending)
    ensures var d1 := d.(book := d.book[id := d.Seat(id).(state := state)]);
            TidyDesk(d1) && WaitingOk(d1, pending) && KeepsServing(d, d1)
  {
    var d1 := d.(book := d.book[id := d.Seat(id).(state := state)]);
    assert forall u: SessionId :: d1.Seat(u).run == d.Seat(u).run && d1.Seat(u).got == d.Seat(u).got;
    SameTidyDesk(d, d1);
  }

  /** Ensuring and showing a step leave the desk tidy, with a session that serves the run. */
  lemma AliveTidies(c: Client, server: Server, r: RunId, adopted: seq<Part>, step: Option<Step>, now: int)
    requires Seated(c, server) && r !in c.desk.ended
    ensures var d := c.desk.Ensured(r, adopted, now);
            var d1 := if step.Some? then d.Touched(step.value, now) else d;
            && TidyDesk(d1) && WaitingOk(d1, c.pending) && KeepsServing(c.desk, d1)
            && d1.active.Some? && Serves(d1, d1.active.value, r) && d1.ended == c.desk.ended
  {
    EnsuredServes(c.desk, server, r, adopted, now);
    EnsuredTidies(c.desk, server, r, adopted, now, c.pending);
    EnsuredHistory(c.desk, r, adopted, now);
    if step.Some? { TouchedTidies(c.desk.Ensured(r, adopted, now), step.value, now, c.pending); }
  }

  lemma StatusTidies(c: Client, server: Server, a: Action)
    requires Steady(c, server) && Seated(c, server) && a.StatusRead? && Enabled(c, server, a)
    ensures Tidied(Move(c, server, a))
  {
    var p, c1 := c.pending[a.call], c.(pending := Remove(c.pending, a.call));
    RemoveTidies(c, a.call);
    SourcesKeep(c, c1);
    assert forall x :: x in c1.pending ==> x in c.pending;
    if CurrentCall(c, p) {
      if a.status == Live {
        LiveTidies(c1, server, p.run, a.asking, a.adopted, a.now);
      } else {
        DeadTidies(c1, server, p.run, a.status, a.adopted, a.now);
      }
    }
  }

  lemma LiveTidies(c: Client, server: Server, r: RunId, asking: Option<(string, Payload)>, adopted: seq<Part>, now: int)
    requires SourcesOk(c) && TrackedOk(c) && Seated(c, server) && c.gate.runId == Some(r)
    ensures Tidied(StartSubscription(c.(desk := c.desk.Ensured(r, adopted, now).Asked(asking, now)), server, r))
  {
    var step := if asking.Some? then Some(Rehydrate(asking.value.0, asking.value.1)) else None;
    AliveTidies(c, server, r, adopted, step, now);
    var c1 := StartSubscription(c.(desk := c.desk.Ensured(r, adopted, now).Asked(asking, now)), server, r);
    forall s | s in c1.sources
      ensures StreamOk(c1, s)
    {
      assert s in c.sources ==> SourceOk(c, s) && StreamOk(c, s);
    }
  }

  lemma ClosedTidies(d: Desk, r: RunId, pending: seq<Pending>)
    requires TidyDesk(d) && WaitingOk(d, pending)
    ensures TidyDesk(d.Closed(r)) && WaitingOk(d.Closed(r), pending)
  {
    var d1 := d.Closed(r);
    assert forall u: SessionId :: d1.Seat(u) == d.Seat(u);
    forall q: RunId
      ensures RegistryOk(d1, q)
    {
      assert RegistryOk(d, q);
    }
  }

  lemma DeadTidies(c: Client, server: Server, r: RunId, status: RunStatus, adopted: seq<Part>, now: int)
    requires SourcesOk(c) && TrackedOk(c) && Seated(c, server) && c.gate.runId == Some(r)
    ensures var desk := if status == Failed then c.desk.Ensured(r, adopted, now).Touched(Failure, now) else c.desk;
            Tidied(ClearSnapshot(c.(gate := c.gate.(runId := None), counters := Disconnect(c.counters), desk := desk.Closed(r))))
  {
    AliveTidies(c, server, r, adopted, Some(Failure), now);
    var desk := if status == Failed then c.desk.Ensured(r, adopted, now).Touched(Failure, now) else c.desk;
    ClosedTidies(desk, r, c.pending);
    StreamsKeep(c, ClearSnapshot(c.(gate := c.gate.(runId := None), counters := Disconnect(c.counters), desk := desk.Closed(r))));
  }

  // ---------------------------------------------------------------- deliveries

  /** A current stream of the same run reaches the session that was handed the event. */
  lemma HandedStream(c: Client, server: Server, s: EventSource, id: SessionId, x: EventSource)
    requires Tracking(c) && Seated(c, server) && s in c.sources && Current(c, s) && s.run !in c.desk.ended
    requires Target(c, s) == Some(id) && x in c.sources && x.run !in c.desk.ended
    ensures x.provided.Some? && x.stamp == c.counters.epoch ==>
              x.run == s.run && (x.provided.value == id || c.desk.Seat(x.provided.value).got == [])
    ensures x.provided.None? && x.stamp == c.counters.subscriptions ==> x.run == s.run
  {
    assert StreamOk(c, s) && OriginalOk(c, s) && StreamOk(c, x) && OriginalOk(c, x);
    assert RegistryOk(c.desk, s.run);
  }

  lemma HandedStreams(c: Client, c1: Client, server: Server, s: EventSource, id: SessionId)
    requires Tracking(c) && Seated(c, server) && s in c.sources && Current(c, s) && s.run !in c.desk.ended
    requires Target(c, s) == Some(id)
    requires Serves(c1.desk, id, s.run) && (forall u: SessionId :: u != id ==> c1.desk.Seat(u) == c.desk.Seat(u))
    requires c1.sources == c.sources && c1.counters == c.counters && c.desk.ended <= c1.desk.ended
    requires c1.desk.served == c.desk.served[s.run := id]
    requires s.run in c1.desk.ended || (c1.gate.runId == Some(s.run) && c1.desk.active == Some(id))
    ensures StreamsOk(c1)
  {
    forall x | x in c1.sources
      ensures StreamOk(c1, x)
    {
      if x.run !in c.desk.ended { HandedStream(c, server, s, id, x); }
    }
  }

  lemma HandedWaiting(d: Desk, d1: Desk, pending: seq<Pending>, id: SessionId, r: RunId)
    requires WaitingOk(d, pending) && d.Seat(id).run == Some(r) && d.book.Keys <= d1.book.Keys
    requires forall u: SessionId :: u != id ==> d1.Seat(u) == d.Seat(u)
    ensures WaitingOk(d1, pending)
  {
  }

  /** The session that is handed an event becomes the registered, active one, or its run ends. */
  lemma HandedTidies(d: Desk, d1: Desk, server: Server, id: SessionId, r: RunId)
    requires SeatsOk(d, server) && TidyDesk(d) && Serves(d, id, r)
    requires (forall u: SessionId :: u != id ==> d1.Seat(u) == d.Seat(u)) && d1.Seat(id).run == Some(r)
    requires d1.served == d.served[r := id] && d.ended <= d1.ended <= d.ended + {r}
    requires if r in d1.ended then d1.active == None && d1.registry == d.registry - {r}
             else d1.active == Some(id) && d1.registry == d.registry[r := id]
    ensures TidyDesk(d1)
  {
    forall q: RunId
      ensures RegistryOk(d1, q)
    {
      assert RegistryOk(d, q);
    }
  }

  lemma PassedTidies(c: Client, server: Server, s: EventSource, works: bool, now: int)
    requires WellFormed(server) && Steady(c, server) && Seated(c, server) && s in c.sources && Current(c, s)
    requires s.run !in c.desk.ended && s.next == |c.desk.Passed(s.run)| < |server.Log(s.run)|
    ensures Tidied(Receive(c, s.run, server.Log(s.run)[s.next], s.provided, works, now))
  {
    var r, e := s.run, server.Log(s.run)[s.next];
    CurrentServes(c, s);
    assert StreamOk(c, s) && c.gate.Passes(r, e);
    var id := Target(c, s).value;
    var c1, d1 := Receive(c, r, e, s.provided, works, now), c.desk.Received(Some(id), r, e, now);
    HandedFields(c.desk, server, id, r, now);
    RecordedFields(c, c.gate.Marked(r, e), d1, e.payload, true, works);
    HandedTidies(c.desk, d1, server, id, r);
    HandedWaiting(c.desk, d1, c.pending, id, r);
    HandedStreams(c, c1, server, s, id);
  }

  lemma AdvanceTidies(c: Client, i: nat)
    requires Tidied(c) && i < |c.sources|
    ensures Tidied(c.(sources := c.sources[i := c.sources[i].(next := c.sources[i].next + 1)]))
  {
    var s := c.sources[i];
    var c1 := c.(sources := c.sources[i := s.(next := s.next + 1)]);
    forall x | x in c1.sources
      ensures StreamOk(c1, x)
      ensures exists y :: y in c.sources && y.provided == x.provided && y.stamp == x.stamp
    {
      assert s in c.sources && StreamOk(c, s);
      assert x in c.sources ==> StreamOk(c, x);
    }
  }

  lemma DeliverTidies(c: Client, server: Server, i: nat, works: bool, now: int)
    requires WellFormed(server) && Steady(c, server) && Seated(c, server)
    requires Enabled(c, server, Deliver(i, works, now)) && Orderly(c, server, Deliver(i, works, now))
    ensures Tidied(DoDeliver(c, server, i, works, now))
  {
    var s := c.sources[i];
    assert SourceOk(c, s);
    if !Current(c, s) {
      FewerStreams(c, DoDeliver(c, server, i, works, now));
    } else {
      CurrentServes(c, s);
      var c1 := Receive(c, s.run, server.Log(s.run)[s.next], s.provided, works, now);
      if s.next == |c.desk.Passed(s.run)| {
        PassedTidies(c, server, s, works, now);
        PassedKeeps(c, server, s.run, s.provided, works, now);
      } else {
        assert c1 == c;
      }
      AdvanceTidies(c1, i);
    }
  }

  lemma NewPageIsTidy(d: Desk)
    ensures TidyDesk(d.Reloaded())
  {
  }

  lemma MoveTidies(c: Client, server: Server, a: Action)
    requires WellFormed(server) && Steady(c, server) && Seated(c, server)
    requires Enabled(c, server, a) && Orderly(c, server, a) && Tidy(c, server, a)
    ensures Tidied(Move(c, server, a))
  {
    match a
    case Ask => AskTidies(c, server);
    case Answered(i, r, works) => AnsweredTidies(c, server, i, r, works);
    case Go(to) => GoTidies(c, to);
    case Reconnect(readable) => ReconnectTidies(c, server, readable);
    case Discovered(i, r) => DiscoveredTidies(c, server, i, r);
    case StatusRead(_, _, _, _, _) => StatusTidies(c, server, a);
    case GiveUp(i) => RemoveTidies(c, i);
    case Resubscribe =>
      ActiveServes(c.desk, server, c.gate.runId.value);
      SubscribeTidies(c, server, c.gate.runId.value);
    case Deliver(i, works, now) => DeliverTidies(c, server, i, works, now);
    case Drop(i) => FewerStreams(c, c.(sources := Remove(c.sources, i)));
    case Reload => NewPageIsTidy(c.desk);
  }

  /** A tidy, orderly action is safe, continues a stretch, and keeps all of it. */
  lemma TidyKeeps(c: Client, server: Server, a: Action)
    requires WellFormed(server) && Steady(c, server) && Seated(c, server)
    requires Enabled(c, server, a) && Orderly(c, server, a) && Tidy(c, server, a)
    ensures Safe(c, server, a) && Continues(c, server, a)
    ensures Steady(Move(c, server, a), server) && Seated(Move(c, server, a), server)
  {
    OrderlyKeeps(c, server, a);
    TidyContinues(c, server, a);
    MoveSeats(c, server, a);
    MovePlaces(c, server, a);
    MoveTidies(c, server, a);
  }

  // ---------------------------------------------------------------- whole runs

  predicate TidyRun(c: Client, server: Server, actions: seq<Action>)
    decreases |actions|
  {
    actions == []
    || (Enabled(c, server, actions[0]) && Orderly(c, server, actions[0]) && Tidy(c, server, actions[0])
        && TidyRun(Move(c, server, actions[0]), server, actions[1..]))
  }

  /** Tidy schedules continue stretches all along, so all that is said of those holds of them. */
  lemma {:induction false} TidyRunContinues(c: Client, server: Server, actions: seq<Action>)
    requires WellFormed(server) && Steady(c, server) && Seated(c, server) && TidyRun(c, server, actions)
    ensures SafeRun(c, server, actions) && ContinuingRun(c, server, actions)
    ensures Steady(Outcome(c, server, actions), server) && Seated(Outcome(c, server, actions), server)
    decreases |actions|
  {
    if actions != [] {
      TidyKeeps(c, server, actions[0]);
      TidyRunContinues(Move(c, server, actions[0]), server, actions[1..]);
    }
  }

  lemma NewClientIsSeated(server: Server)
    ensures Steady(NEW_CLIENT, server) && Seated(NEW_CLIENT, server)
  {
    NewClientIsSteady(server);
    NewClientSeats(server);
    NewPageIsTidy(NO_SESSIONS);
  }
}
