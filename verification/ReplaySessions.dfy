/** Which session gets the events that pass. Every session gets one stretch of its run's log and shows its
    text, exactly as long as each event reaches a session that got nothing yet or got the one before.
  */
module ReplaySessions {
  import opened Options
  import opened Strings
  import opened ChatParts
  import opened Timeline
  import opened TimelineFacts
  import opened StreamInvariants
  import opened StreamTheorems
  import opened Replay
  import opened ReplayTheorems

  // ---------------------------------------------------------------- the text of a log

  /** The text a run's events stream. */
  function LogText(events: seq<LogEvent>): string {
    if events == [] then ""
    else
      var n := |events| - 1;
      LogText(events[..n]) + TextOfEvent(events[n])
  }

  /** The text of a content delta and of an iteration cap; other events carry none. */
  function TextOfEvent(e: LogEvent): string {
    match e.payload
    case Streamed(ContentDelta(delta)) => delta
    case Streamed(IterationCapReached(content)) => content
    case _ => ""
  }

  lemma AffectText(s: State, e: LogEvent, now: int)
    ensures Texts(Affect(s, e.payload, now).segments) == Texts(s.segments) + TextOfEvent(e)
  {
    var steps := EffectOf(e.payload);
    if steps != [] {
      StepText(s, steps[0], now);
    }
  }

  lemma LogTextPush(events: seq<LogEvent>, e: LogEvent)
    ensures LogText(events + [e]) == LogText(events) + TextOfEvent(e)
  {
    assert (events + [e])[..|events|] == events;
  }

  lemma {:induction false} LoadText(parts: seq<Part>, now: int)
    ensures Texts(Load(parts, now).segments) == JoinText(parts)
  {
    if parts != [] {
      var n := |parts| - 1;
      LoadText(parts[..n], now);
      AddPartText(Load(parts[..n], now), parts[n], now);
    }
  }

  lemma AddPartText(s: State, part: Part, now: int)
    ensures Texts(AddPart(s, part, now).segments)
            == Texts(s.segments) + (if part.TextPart? then part.text else "")
  {
    match part
    case CallPart(call) => UpsertText(s.segments, PutCall(call));
    case ResultPart(result) => UpsertText(s.segments, PutResult(result));
    case TextPart(text, _) => CollectPush(TextOf, s.segments, TextSeg(text));
    case ReasoningPart(text, open, d) => CollectPush(TextOf, s.segments, ReasoningSeg(|s.blocks|, text, open, now, d));
    case InstructionPart(content) => CollectPush(TextOf, s.segments, InstructionSeg(content));
    case TaskPart(task) => CollectPush(TextOf, s.segments, TaskSeg(task));
    case MediaPart(body) => CollectPush(TextOf, s.segments, MediaSeg(body));
    case TruncatedPart => CollectPush(TextOf, s.segments, TruncatedSeg);
    case IterationCapPart => CollectPush(TextOf, s.segments, IterationCapSeg);
    case SourcePart(_) =>
    case OtherPart(_) =>
  }

  lemma FromPartsText(parts: seq<Part>, now: int)
    ensures Texts(FromParts(parts, now).segments) == JoinText(parts)
  {
    LoadText(parts, now);
  }

  // ---------------------------------------------------------------- what a session holds

  /** A session shows what its message had before and then the text of what it got. */
  predicate Shows(s: Session) {
    Texts(s.state.segments) == s.base + LogText(s.got)
  }

  /** What it got is a stretch of a log of which `n` events passed. */
  predicate Stretch(s: Session, log: seq<LogEvent>, n: nat) {
    s.from + |s.got| <= n <= |log| && s.got == log[s.from..s.from + |s.got|]
  }

  /** What a session got is of one run, and a stretch of its log; only the one served last got the last. */
  predicate SessionOk(d: Desk, server: Server, id: SessionId) {
    var s := d.Seat(id);
    && Shows(s) && s.pure && (s.got == [] ==> s.from == 0)
    && (s.got != [] ==>
          && s.run.Some? && s.run.value in d.served
          && Stretch(s, server.Log(s.run.value), |d.Passed(s.run.value)|)
          && (s.from + |s.got| == |d.Passed(s.run.value)| ==> d.served[s.run.value] == id))
  }

  /** The session that was handed the last event of a run reaches to the end of what passed. */
  predicate ServedOk(d: Desk, r: RunId) {
    r in d.served ==>
      var s := d.Seat(d.served[r]);
      s.run == Some(r) && s.got != [] && s.from + |s.got| == |d.Passed(r)|
  }

  ghost predicate SeatsOk(d: Desk, server: Server) {
    (forall id: SessionId :: SessionOk(d, server, id)) && (forall r: RunId :: ServedOk(d, r))
  }

  /** Whoever names a session of the desk names one that was made. */
  predicate DeskPlaced(d: Desk) {
    && (forall id :: id in d.book ==> id < d.made)
    && (d.active.Some? ==> d.active.value in d.book)
    && (forall r :: r in d.registry ==> d.registry[r] in d.book)
  }

  /** Whoever names a session names one that was made. */
  predicate Placed(c: Client) {
    && DeskPlaced(c.desk)
    && (forall s :: s in c.sources && s.provided.Some? ==> s.provided.value in c.desk.book)
    && (forall p :: p in c.pending && p.Starting? ==> p.session in c.desk.book)
  }

  // ---------------------------------------------------------------- actions that continue a stretch

  /** The session an event of a stream reaches. */
  function Target(c: Client, s: EventSource): Option<SessionId> {
    if s.provided.Some? then s.provided else c.desk.active
  }

  /** The session got nothing yet, or the last event of the run; or there is none, and never was. */
  predicate Takes(d: Desk, target: Option<SessionId>, r: RunId) {
    if target.None? then r !in d.served
    else d.Seat(target.value).got == [] || (r in d.served && d.served[r] == target.value)
  }

  predicate Passing(c: Client, server: Server, i: nat)
    requires i < |c.sources| && c.sources[i].next < |server.Log(c.sources[i].run)|
  {
    var s := c.sources[i];
    Current(c, s) && c.gate.Passes(s.run, server.Log(s.run)[s.next])
  }

  /** A start is answered for a session that got nothing of another run, and an event that passes reaches
      a session that takes it. */
  predicate Continues(c: Client, server: Server, a: Action)
    requires Enabled(c, server, a)
  {
    match a
    case Answered(i, r, _) => c.desk.Seat(c.pending[i].session).got == [] || c.desk.Seat(c.pending[i].session).run == Some(r)
    case Deliver(i, _, _) => Passing(c, server, i) ==> Takes(c.desk, Target(c, c.sources[i]), c.sources[i].run)
    case _ => true
  }

  // ---------------------------------------------------------------- what desk updates keep

  lemma FedShows(s: Session, r: RunId, e: LogEvent, n: nat, now: int)
    requires Shows(s)
    ensures Shows(s.Fed(r, e, n, now))
  {
    AffectText(s.state, e, now);
    LogTextPush(s.got, e);
    Regroup(s.base, LogText(s.got), TextOfEvent(e));
  }

  /** The next event continues the stretch of a session that got the last one, or starts one. */
  lemma FedStretch(s: Session, r: RunId, log: seq<LogEvent>, n: nat, now: int)
    requires n < |log| && (s.got == [] || (Stretch(s, log, n) && s.from + |s.got| == n))
    ensures Stretch(s.Fed(r, log[n], n, now), log, n + 1)
  {
    if s.got == [] {
      assert [] + [log[n]] == log[n..n + 1];
    } else {
      assert log[s.from..n + 1] == log[s.from..n] + [log[n]];
    }
  }

  /** Session `id` was handed the next event of `r`. */
  ghost predicate HandedTo(d: Desk, d1: Desk, server: Server, id: SessionId, r: RunId, now: int) {
    var n := |d.Passed(r)|;
    && n < |server.Log(r)| && d1.Seat(id) == d.Seat(id).Fed(r, server.Log(r)[n], n, now)
    && (forall u: SessionId :: u != id ==> d1.Seat(u) == d.Seat(u))
    && |d1.Passed(r)| == n + 1 && (forall q: RunId :: q != r ==> d1.Passed(q) == d.Passed(q))
    && d1.served == d.served[r := id] && d1.before == d.before
  }

  lemma HandedFields(d: Desk, server: Server, id: SessionId, r: RunId, now: int)
    requires |d.Passed(r)| < |server.Log(r)|
    ensures var e := server.Log(r)[|d.Passed(r)|];
            var d1 := d.Received(Some(id), r, e, now);
            && HandedTo(d, d1, server, id, r, now)
            && d1.made == d.made && d1.book.Keys == d.book.Keys + {id}
            && d1.ended == (if e.payload.RunEnd? then d.ended + {r} else d.ended)
            && (if e.payload.RunEnd? then d1.active == None && d1.registry == d.registry - {r}
                else d1.active == Some(id) && d1.registry == d.registry[r := id])
  {
    var e := server.Log(r)[|d.Passed(r)|];
    HeldFields(d, id, r, e, d.Seat(id).Fed(r, e, |d.Passed(r)|, now));
  }

  /** The desk on which session `id` has become `s` with event `e` of its run. */
  lemma HeldFields(d: Desk, id: SessionId, r: RunId, e: LogEvent, s: Session)
    requires s.run == Some(r)
    ensures var held := d.(active := Some(id), registry := d.registry[r := id], served := d.served[r := id],
                           book := d.book[id := s]).Noted(r, e);
            var d1 := if e.payload.RunEnd? then held.Closed(r) else held;
            && d1.Seat(id) == s && (forall u: SessionId :: u != id ==> d1.Seat(u) == d.Seat(u))
            && |d1.Passed(r)| == |d.Passed(r)| + 1 && (forall q: RunId :: q != r ==> d1.Passed(q) == d.Passed(q))
            && d1.served == d.served[r := id] && d1.before == d.before
            && d1.made == d.made && d1.book.Keys == d.book.Keys + {id}
            && d1.ended == (if e.payload.RunEnd? then d.ended + {r} else d.ended)
            && (if e.payload.RunEnd? then d1.active == None && d1.registry == d.registry - {r}
                else d1.active == Some(id) && d1.registry == d.registry[r := id])
  {
    var held := d.(active := Some(id), registry := d.registry[r := id], served := d.served[r := id],
                   book := d.book[id := s]).Noted(r, e);
    assert held.registry - {r} == d.registry - {r};
    assert held.ActiveRun() == Some(r);
  }

  lemma FedSession(d: Desk, d1: Desk, server: Server, id: SessionId, r: RunId, now: int)
    requires HandedTo(d, d1, server, id, r, now) && SessionOk(d, server, id) && ServedOk(d, r) && Takes(d, Some(id), r)
    ensures SessionOk(d1, server, id)
  {
    var n, s := |d.Passed(r)|, d.Seat(id);
    FedShows(s, r, server.Log(r)[n], n, now);
    FedStretch(s, r, server.Log(r), n, now);
  }

  lemma OtherSession(d: Desk, d1: Desk, server: Server, id: SessionId, r: RunId, now: int, u: SessionId)
    requires HandedTo(d, d1, server, id, r, now) && SessionOk(d, server, u) && u != id
    ensures SessionOk(d1, server, u)
  {
    var s := d.Seat(u);
    assert d1.Seat(u) == s;
    if s.got != [] {
      var q := s.run.value;
      assert q != r ==> d1.Passed(q) == d.Passed(q);
    }
  }

  lemma HandedServed(d: Desk, d1: Desk, server: Server, id: SessionId, r: RunId, now: int, q: RunId)
    requires HandedTo(d, d1, server, id, r, now) && ServedOk(d, q) && ServedOk(d, r) && Takes(d, Some(id), r)
    ensures ServedOk(d1, q)
  {
    if q != r {
      assert d1.Passed(q) == d.Passed(q);
      assert q in d.served ==> d.served[q] != id;
    }
  }

  /** Handing an event over keeps sessions right if and only if the session takes it. */
  lemma HandedSeats(d: Desk, d1: Desk, server: Server, id: SessionId, r: RunId, now: int)
    requires SeatsOk(d, server) && HandedTo(d, d1, server, id, r, now)
    ensures SeatsOk(d1, server) <==> Takes(d, Some(id), r)
  {
    assert SessionOk(d, server, id) && ServedOk(d, r);
    if Takes(d, Some(id), r) {
      forall u: SessionId
        ensures SessionOk(d1, server, u)
      {
        if u == id { FedSession(d, d1, server, id, r, now); } else { OtherSession(d, d1, server, id, r, now, u); }
      }
      forall q: RunId
        ensures ServedOk(d1, q)
      {
        HandedServed(d, d1, server, id, r, now, q);
      }
    } else {
      WrongSession(d, d1, server, id, r, now);
    }
  }

  lemma WrongSession(d: Desk, d1: Desk, server: Server, id: SessionId, r: RunId, now: int)
    requires SessionOk(d, server, id) && HandedTo(d, d1, server, id, r, now) && !Takes(d, Some(id), r)
    ensures !SessionOk(d1, server, id) || !ServedOk(d1, r)
  {
  }

  /** An event that reaches no session keeps them right if and only if none got any of its run. */
  lemma UnheardSeats(d: Desk, d1: Desk, server: Server, r: RunId)
    requires SeatsOk(d, server) && d1.book == d.book && d1.served == d.served
    requires |d.Passed(r)| + 1 == |d1.Passed(r)| <= |server.Log(r)| && forall q: RunId :: q != r ==> d1.Passed(q) == d.Passed(q)
    ensures SeatsOk(d1, server) <==> Takes(d, None, r)
  {
    assert forall u: SessionId :: d1.Seat(u) == d.Seat(u);
    assert ServedOk(d, r);
    if r in d.served {
      assert !ServedOk(d1, r);
    } else {
      forall u: SessionId
        ensures SessionOk(d1, server, u)
      {
        assert SessionOk(d, server, u);
      }
      forall q: RunId
        ensures ServedOk(d1, q)
      {
        assert ServedOk(d, q);
      }
    }
  }

  /** Sessions do not change, and neither do their histories. */
  lemma SameSeats(d: Desk, d1: Desk, server: Server)
    requires d1.book == d.book && d1.served == d.served && d1.passed == d.passed
    ensures SeatsOk(d1, server) <==> SeatsOk(d, server)
  {
    assert forall u: SessionId :: d1.Seat(u) == d.Seat(u);
    assert forall r: RunId :: d1.Passed(r) == d.Passed(r);
    assert forall u: SessionId :: SessionOk(d1, server, u) == SessionOk(d, server, u);
    assert forall r: RunId :: ServedOk(d1, r) == ServedOk(d, r);
  }

  /** One session shows another state, and its text fits. */
  lemma RewrittenSeats(d: Desk, d1: Desk, server: Server, id: SessionId)
    requires SeatsOk(d, server) && d1.served == d.served && d1.passed == d.passed
    requires forall u: SessionId :: u != id ==> d1.Seat(u) == d.Seat(u)
    requires d1.Seat(id) == d.Seat(id).(state := d1.Seat(id).state, base := d1.Seat(id).base) && Shows(d1.Seat(id))
    ensures SeatsOk(d1, server)
  {
    assert forall r: RunId :: d1.Passed(r) == d.Passed(r);
    forall u: SessionId
      ensures SessionOk(d1, server, u)
    {
      assert SessionOk(d, server, u);
    }
    forall r: RunId
      ensures ServedOk(d1, r)
    {
      assert ServedOk(d, r);
    }
  }

  /** An empty session becomes another empty one. */
  lemma EmptySeats(d: Desk, d1: Desk, server: Server, id: SessionId)
    requires SeatsOk(d, server) && d1.served == d.served && d1.passed == d.passed
    requires forall u: SessionId :: u != id ==> d1.Seat(u) == d.Seat(u)
    requires d.Seat(id).got == [] == d1.Seat(id).got && d1.Seat(id).from == 0 && d1.Seat(id).pure
    requires Texts(d1.Seat(id).state.segments) == d1.Seat(id).base
    ensures SeatsOk(d1, server)
  {
    assert forall r: RunId :: d1.Passed(r) == d.Passed(r);
    assert LogText([]) == "" && d1.Seat(id).base + "" == d1.Seat(id).base;
    forall u: SessionId
      ensures SessionOk(d1, server, u)
    {
      assert SessionOk(d, server, u);
    }
    forall r: RunId
      ensures ServedOk(d1, r)
    {
      assert ServedOk(d, r);
    }
  }

  lemma OpenedSeats(d: Desk, server: Server)
    requires SeatsOk(d, server) && d.made !in d.book
    ensures SeatsOk(d.Opened(), server)
  {
    assert Texts([]) == "";
    EmptySeats(d, d.Opened(), server, d.made);
  }

  /** Naming a session keeps sessions right if and only if it got nothing, or is of that run anyway. */
  lemma NamedSeats(d: Desk, server: Server, id: SessionId, r: RunId)
    requires SeatsOk(d, server)
    ensures SeatsOk(d.Named(id, r), server) <==> d.Seat(id).got == [] || d.Seat(id).run == Some(r)
  {
    var d1, s := d.Named(id, r), d.Seat(id);
    assert SessionOk(d, server, id);
    if s.got == [] {
      assert LogText([]) == "" && s.base + "" == s.base;
      EmptySeats(d, d1, server, id);
    } else if s.run == Some(r) {
      assert d1.Seat(id) == s;
      RewrittenSeats(d, d1, server, id);
    } else {
      assert !SessionOk(d1, server, id);
    }
  }

  lemma EnsuredSeats(d: Desk, server: Server, r: RunId, adopted: seq<Part>, now: int)
    requires SeatsOk(d, server) && d.made !in d.book
    ensures SeatsOk(d.Ensured(r, adopted, now), server)
  {
    var d1 := d.Ensured(r, adopted, now);
    EnsuredHistory(d, r, adopted, now);
    FromPartsText(adopted, now);
    if r !in d.registry {
      EmptySeats(d, d1, server, d.made);
    } else {
      var s := d.Seat(d.registry[r]);
      assert SessionOk(d, server, d.registry[r]);
      if s.state.segments == [] && adopted != [] { EmptyText(s.base, LogText(s.got)); }
      RewrittenSeats(d, d1, server, d.registry[r]);
    }
  }

  lemma EmptyText(a: string, b: string)
    requires Texts([]) == a + b
    ensures a == "" && b == "" && forall x: string :: x + b == x
  {
    assert Texts([]) == "";
  }

  lemma TouchedSeats(d: Desk, server: Server, step: Step, now: int)
    requires SeatsOk(d, server) && Emitted(step) == ""
    ensures SeatsOk(d.Touched(step, now), server)
  {
    if d.active.Some? {
      var s := d.Seat(d.active.value);
      StepText(s.state, step, now);
      assert SessionOk(d, server, d.active.value);
      assert Texts(s.state.segments) + "" == Texts(s.state.segments);
      RewrittenSeats(d, d.Touched(step, now), server, d.active.value);
    }
  }

  // ---------------------------------------------------------------- actions

  lemma StatusSeats(c: Client, server: Server, a: Action)
    requires SeatsOk(c.desk, server) && Placed(c) && a.StatusRead? && Enabled(c, server, a)
    ensures SeatsOk(Move(c, server, a).desk, server)
  {
    var p := c.pending[a.call];
    if CurrentCall(c, p) {
      var d := c.desk.Ensured(p.run, a.adopted, a.now);
      EnsuredSeats(c.desk, server, p.run, a.adopted, a.now);
      if a.asking.Some? { TouchedSeats(d, server, Rehydrate(a.asking.value.0, a.asking.value.1), a.now); }
      TouchedSeats(d, server, Failure, a.now);
      if a.status != Live {
        var over := if a.status == Failed then d.Touched(Failure, a.now) else c.desk;
        SameSeats(over, over.Closed(p.run), server);
      }
    }
  }

  /** The next event passes, by a stream that is current. */
  lemma PassedSeats(c: Client, server: Server, s: EventSource, works: bool, now: int)
    requires WellFormed(server) && SeatsOk(c.desk, server) && s.next == |c.desk.Passed(s.run)| < |server.Log(s.run)|
    requires c.gate.Passes(s.run, server.Log(s.run)[s.next])
    ensures SeatsOk(Receive(c, s.run, server.Log(s.run)[s.next], s.provided, works, now).desk, server)
            <==> Takes(c.desk, Target(c, s), s.run)
  {
    var r, e, target := s.run, server.Log(s.run)[s.next], Target(c, s);
    var d1 := c.desk.Received(target, r, e, now);
    RecordedFields(c, c.gate.Marked(r, e), d1, e.payload, target.Some?, works);
    if target.Some? {
      HandedFields(c.desk, server, target.value, r, now);
      HandedSeats(c.desk, d1, server, target.value, r, now);
    } else {
      ReceivedDesk(c.desk, None, r, e, now);
      UnheardSeats(c.desk, d1, server, r);
    }
  }

  lemma DeliverSeats(c: Client, server: Server, i: nat, works: bool, now: int)
    requires WellFormed(server) && Good(c, server) && SeatsOk(c.desk, server)
    requires Enabled(c, server, Deliver(i, works, now)) && Safe(c, server, Deliver(i, works, now))
    ensures SeatsOk(DoDeliver(c, server, i, works, now).desk, server) <==> Continues(c, server, Deliver(i, works, now))
  {
    var s := c.sources[i];
    assert SourceOk(c, s);
    if Passing(c, server, i) {
      assert s.next == |c.desk.Passed(s.run)|;
      PassedSeats(c, server, s, works, now);
    } else {
      assert DoDeliver(c, server, i, works, now).desk == c.desk;
    }
  }

  /** An action keeps every session at one stretch of its run's log if and only if it continues one. */
  lemma MoveSeats(c: Client, server: Server, a: Action)
    requires WellFormed(server) && Good(c, server) && SeatsOk(c.desk, server) && Placed(c)
    requires Enabled(c, server, a) && Safe(c, server, a)
    ensures SeatsOk(Move(c, server, a).desk, server) <==> Continues(c, server, a)
  {
    match a
    case Ask => OpenedSeats(c.desk, server);
    case Answered(i, r, works) =>
      AnsweredFields(c, server, i, r, works);
      NamedSeats(c.desk, server, c.pending[i].session, r);
    case Go(to) => SameSeats(c.desk, DoGo(c, to).desk, server);
    case StatusRead(_, _, _, _, _) => StatusSeats(c, server, a);
    case Deliver(i, works, now) => DeliverSeats(c, server, i, works, now);
    case Reload => NewPageSeats(c.desk, server);
    case _ => SameSeats(c.desk, Move(c, server, a).desk, server);
  }

  lemma NewPageSeats(d: Desk, server: Server)
    ensures SeatsOk(d.Reloaded(), server)
  {
    var d1 := d.Reloaded();
    assert Texts([]) == "" && LogText([]) == "";
    forall u: SessionId
      ensures SessionOk(d1, server, u)
    {
      assert d1.Seat(u) == NEW_SESSION;
    }
  }

  // ---------------------------------------------------------------- sessions that were made

  lemma EnsuredPlaces(d: Desk, r: RunId, adopted: seq<Part>, now: int)
    requires DeskPlaced(d)
    ensures var d1 := d.Ensured(r, adopted, now); DeskPlaced(d1) && d.book.Keys <= d1.book.Keys
  {
  }

  lemma TouchedPlaces(d: Desk, step: Step, now: int)
    requires DeskPlaced(d)
    ensures DeskPlaced(d.Touched(step, now)) && d.Touched(step, now).book.Keys == d.book.Keys
  {
  }

  lemma ClosedPlaces(d: Desk, r: RunId)
    requires DeskPlaced(d)
    ensures DeskPlaced(d.Closed(r)) && d.Closed(r).book == d.book
  {
  }

  /** Only the desk changes, and calls and original streams are not more. */
  lemma PlacedStill(c: Client, c1: Client)
    requires Placed(c) && DeskPlaced(c1.desk) && c.desk.book.Keys <= c1.desk.book.Keys
    requires forall p :: p in c1.pending && p.Starting? ==> p in c.pending
    requires forall s :: s in c1.sources && s.provided.Some? ==> s in c.sources
    ensures Placed(c1)
  {
  }

  lemma StatusPlaces(c: Client, server: Server, a: Action)
    requires Placed(c) && a.StatusRead? && Enabled(c, server, a)
    ensures Placed(Move(c, server, a))
  {
    var p, c1 := c.pending[a.call], Move(c, server, a);
    var d := c.desk.Ensured(p.run, a.adopted, a.now);
    assert forall x :: x in Remove(c.pending, a.call) ==> x in c.pending;
    if CurrentCall(c, p) {
      EnsuredPlaces(c.desk, p.run, a.adopted, a.now);
      if a.status == Live {
        if a.asking.Some? { TouchedPlaces(d, Rehydrate(a.asking.value.0, a.asking.value.1), a.now); }
      } else {
        TouchedPlaces(d, Failure, a.now);
        ClosedPlaces(if a.status == Failed then d.Touched(Failure, a.now) else c.desk, p.run);
      }
    }
    PlacedStill(c, c1);
  }

  lemma DeliverPlaces(c: Client, server: Server, i: nat, works: bool, now: int)
    requires Placed(c) && Enabled(c, server, Deliver(i, works, now))
    ensures Placed(DoDeliver(c, server, i, works, now))
  {
    var s, c1 := c.sources[i], DoDeliver(c, server, i, works, now);
    assert s in c.sources && forall x :: x in Remove(c.sources, i) ==> x in c.sources;
    if Passing(c, server, i) {
      var e := server.Log(s.run)[s.next];
      ReceivedPlaces(c.desk, Target(c, s), s.run, e, now);
      RecordedFields(c, c.gate.Marked(s.run, e), c.desk.Received(Target(c, s), s.run, e, now), e.payload, Target(c, s).Some?, works);
      assert forall x :: x in c1.sources && x.provided.Some? ==> x.provided.value in c.desk.book;
    }
  }

  lemma ReceivedPlaces(d: Desk, target: Option<SessionId>, r: RunId, e: LogEvent, now: int)
    requires (forall id :: id in d.book ==> id < d.made) && (forall q :: q in d.registry ==> d.registry[q] in d.book)
    requires target.Some? ==> target.value in d.book
    ensures var d1 := d.Received(target, r, e, now);
            && d1.book.Keys == d.book.Keys && d1.made == d.made && (forall q :: q in d1.registry ==> d1.registry[q] in d1.book)
            && (d1.active == None || d1.active == target || d1.active == d.active)
  {
  }

  lemma MovePlaces(c: Client, server: Server, a: Action)
    requires Placed(c) && Enabled(c, server, a)
    ensures Placed(Move(c, server, a))
  {
    match a
    case StatusRead(_, _, _, _, _) => StatusPlaces(c, server, a);
    case Deliver(i, works, now) => DeliverPlaces(c, server, i, works, now);
    case Answered(i, r, works) =>
      AnsweredFields(c, server, i, r, works);
      assert c.pending[i] in c.pending && forall p :: p in Remove(c.pending, i) ==> p in c.pending;
    case Discovered(i, _) => assert forall p :: p in Remove(c.pending, i) ==> p in c.pending;
    case GiveUp(i) => assert forall p :: p in Remove(c.pending, i) ==> p in c.pending;
    case Drop(i) => assert forall s :: s in Remove(c.sources, i) ==> s in c.sources;
    case _ =>
  }

  // ---------------------------------------------------------------- whole runs

  predicate ContinuingRun(c: Client, server: Server, actions: seq<Action>)
    decreases |actions|
  {
    actions == []
    || (Enabled(c, server, actions[0]) && Safe(c, server, actions[0]) && Continues(c, server, actions[0])
        && ContinuingRun(Move(c, server, actions[0]), server, actions[1..]))
  }

  lemma {:induction false} ContinuingRunKeeps(c: Client, server: Server, actions: seq<Action>)
    requires WellFormed(server) && Good(c, server) && SeatsOk(c.desk, server) && Placed(c) && ContinuingRun(c, server, actions)
    ensures SafeRun(c, server, actions)
    ensures var c1 := Outcome(c, server, actions); Good(c1, server) && SeatsOk(c1.desk, server) && Placed(c1)
    decreases |actions|
  {
    if actions != [] {
      MoveKeeps(c, server, actions[0]);
      MoveSeats(c, server, actions[0]);
      MovePlaces(c, server, actions[0]);
      ContinuingRunKeeps(Move(c, server, actions[0]), server, actions[1..]);
    }
  }

  /** Gate and sessions are right all along a run of possible actions. */
  ghost predicate RightRun(c: Client, server: Server, actions: seq<Action>)
    decreases |actions|
  {
    Good(c, server) && SeatsOk(c.desk, server)
    && (actions == [] || (Enabled(c, server, actions[0]) && RightRun(Move(c, server, actions[0]), server, actions[1..])))
  }

  /** The schedules of safe actions that continue stretches are exactly those along which every session has
      one stretch of its run's log. */
  lemma {:induction false} ContinuingRunsAreRight(c: Client, server: Server, actions: seq<Action>)
    requires WellFormed(server) && Good(c, server) && SeatsOk(c.desk, server) && Placed(c)
    ensures ContinuingRun(c, server, actions) <==> RightRun(c, server, actions)
    decreases |actions|
  {
    if actions != [] && Enabled(c, server, actions[0]) {
      MoveKeeps(c, server, actions[0]);
      if Safe(c, server, actions[0]) {
        MoveSeats(c, server, actions[0]);
        MovePlaces(c, server, actions[0]);
        if Continues(c, server, actions[0]) {
          ContinuingRunsAreRight(Move(c, server, actions[0]), server, actions[1..]);
        }
      }
    }
  }

  lemma NewClientSeats(server: Server)
    ensures Good(NEW_CLIENT, server) && SeatsOk(NEW_CLIENT.desk, server) && Placed(NEW_CLIENT)
  {
    NewClientIsGood(server);
    NewPageSeats(NO_SESSIONS, server);
    assert NO_SESSIONS.Reloaded() == NO_SESSIONS;
  }

  /** The message shows its first text and then that of events `n` to `m` of the log. */
  predicate ShowsSlice(s: Session, log: seq<LogEvent>, n: nat, m: nat, streaming: bool) {
    n <= m <= |log| && ShownText(Build(s.state, streaming)) == s.base + LogText(log[n..m])
  }

  /** The message of a session shows its first text and then that of a stretch of the log of its run, which
      for the session served last, and for no other, reaches to the end of what passed. */
  predicate TextOfStretch(d: Desk, server: Server, id: SessionId, r: RunId, streaming: bool) {
    var s := d.Seat(id);
    && s.run == Some(r) && s.from + |s.got| <= |d.Passed(r)|
    && ShowsSlice(s, server.Log(r), s.from, s.from + |s.got|, streaming)
    && r in d.served && (d.served[r] == id <==> s.from + |s.got| == |d.Passed(r)|)
  }

  /** Session `id` got a stretch of the log of `r`, the last one if it was served last. */
  predicate GotStretch(d: Desk, server: Server, id: SessionId, r: RunId) {
    var s := d.Seat(id);
    && s.run == Some(r) && Shows(s) && Stretch(s, server.Log(r), |d.Passed(r)|)
    && r in d.served && (d.served[r] == id <==> s.from + |s.got| == |d.Passed(r)|)
  }

  lemma PlaceOfStretch(d: Desk, server: Server, id: SessionId, r: RunId)
    requires SessionOk(d, server, id) && ServedOk(d, r) && d.Seat(id).got != [] && d.Seat(id).run == Some(r)
    ensures GotStretch(d, server, id, r)
  {
  }

  lemma SeatText(d: Desk, server: Server, id: SessionId, r: RunId, streaming: bool)
    requires GotStretch(d, server, id, r)
    ensures TextOfStretch(d, server, id, r, streaming)
  {
    var s, log := d.Seat(id), server.Log(r);
    BuildText(s.state, streaming);
    assert s.got == log[s.from..s.from + |s.got|];
  }

  /** End to end: whatever happened to the connection, also after the run's end, the message of a session
      that got anything of a run shows what it had when the session was made and then the text of one
      stretch of the log. */
  lemma {:induction false} ShownTextIsLogText(server: Server, actions: seq<Action>, id: SessionId, streaming: bool)
    requires WellFormed(server) && ContinuingRun(NEW_CLIENT, server, actions)
    ensures SafeRun(NEW_CLIENT, server, actions)
    ensures var d := Outcome(NEW_CLIENT, server, actions).desk;
            d.Seat(id).got != [] ==> d.Seat(id).run.Some? && TextOfStretch(d, server, id, d.Seat(id).run.value, streaming)
  {
    NewClientSeats(server);
    ContinuingRunKeeps(NEW_CLIENT, server, actions);
    var d := Outcome(NEW_CLIENT, server, actions).desk;
    assert SessionOk(d, server, id);
    if d.Seat(id).got != [] {
      assert ServedOk(d, d.Seat(id).run.value);
      PlaceOfStretch(d, server, id, d.Seat(id).run.value);
      SeatText(d, server, id, d.Seat(id).run.value, streaming);
    }
  }
}
