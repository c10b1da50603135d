/** Which run is tracked: what the connection epoch and the guards of the hook are for. Along orderly
    schedules, which are safe, the tracked run is live and at home, and every current original stream of a
    live run serves it.
  */
module ReplayTracking {
  import opened Options
  import opened ChatParts
  import opened Timeline
  import opened Replay
  import opened ReplayTheorems

  // ---------------------------------------------------------------- the invariant

  predicate TrackedOk(c: Client) {
    c.gate.runId.Some? ==>
      c.gate.runId.value !in c.desk.ended && c.runConversation.Some? && c.conversation == c.runConversation
  }

  predicate OriginalOf(c: Client, s: EventSource, r: RunId) {
    s.provided.Some? && s.stamp == c.counters.epoch && s.run == r
  }

  /** An original stream is outdated, or its run has ended, or it serves the tracked run. */
  predicate OriginalOk(c: Client, s: EventSource) {
    OriginalOf(c, s, s.run) && s.run !in c.desk.ended ==> c.gate.runId == Some(s.run)
  }

  /** Every start has an epoch of its own, and no stream of that epoch is open before the answer. */
  predicate StartsOk(pending: seq<Pending>, sources: seq<EventSource>, epoch: nat) {
    && (forall i :: 0 <= i < |pending| && pending[i].Starting? ==> pending[i].epoch <= epoch)
    && (forall i, j :: 0 <= i < j < |pending| && pending[i].Starting? && pending[j].Starting?
                       ==> pending[i].epoch != pending[j].epoch)
    && (forall i, s :: 0 <= i < |pending| && pending[i].Starting? && s in sources && s.provided.Some?
                       ==> s.stamp != pending[i].epoch)
  }

  predicate Tracking(c: Client) {
    TrackedOk(c) && (forall s :: s in c.sources ==> OriginalOk(c, s)) && StartsOk(c.pending, c.sources, c.counters.epoch)
  }

  ghost predicate Steady(c: Client, server: Server) {
    Good(c, server) && Tracking(c)
  }

  // ---------------------------------------------------------------- orderly actions

  /** A run is resumed in place, if no other run is tracked and its end was not seen. */
  predicate LiveResume(c: Client, server: Server, r: RunId, q: nat) {
    c.desk.ActiveRun() == Some(r)
    || ((c.gate.runId == None || c.gate.runId == Some(r)) && r !in c.desk.ended
        && Fits(c.gate.Track(r).(last := q), c.desk, server, r))
  }

  /** The server starts runs that did not stream before, an outdated start takes the gate from no
      original stream, only live runs are resumed, and no stream of an ended run delivers. */
  predicate Orderly(c: Client, server: Server, a: Action)
    requires Enabled(c, server, a)
  {
    match a
    case Answered(i, r, _) =>
      && r !in c.desk.ended
      && (c.gate.runId == Some(r)
          || (c.desk.Passed(r) == []
              && (c.pending[i].epoch == c.counters.epoch
                  || forall s :: s in c.sources && OriginalOf(c, s, s.run) ==> s.run in c.desk.ended || s.run == r)))
    case Reconnect(readable) =>
      var stored := Stored(c, c.conversation.value, readable);
      stored.Some? ==> LiveResume(c, server, stored.value.run, stored.value.last)
    case Discovered(i, r) =>
      CurrentDiscovery(c, i) ==> LiveResume(c, server, r, 0)
    case Deliver(i, _, _) => Current(c, c.sources[i]) ==> c.sources[i].run !in c.desk.ended
    case _ => true
  }

  /** A current stream of a run that has not ended serves the tracked run: subscriptions by their
      generation, original streams by the epoch. */
  lemma CurrentServes(c: Client, s: EventSource)
    requires Tracking(c) && s in c.sources && Current(c, s) && s.run !in c.desk.ended
    ensures c.gate.runId == Some(s.run)
  {
    assert OriginalOk(c, s);
  }

  lemma OrderlyIsSafe(c: Client, server: Server, a: Action)
    requires Tracking(c) && Enabled(c, server, a) && Orderly(c, server, a)
    ensures Safe(c, server, a)
  {
    if a.Deliver? {
      var s := c.sources[a.source];
      if Current(c, s) { CurrentServes(c, s); }
    }
  }

  // ---------------------------------------------------------------- actions keep it

  /** Original streams are outdated, or nothing takes the gate from the tracked run before it has ended. */
  lemma OriginalsKeep(c: Client, c1: Client)
    requires SourcesOk(c) && Tracking(c) && (forall s :: s in c1.sources ==> s in c.sources || s.provided.None?)
    requires c.desk.ended <= c1.desk.ended
    requires c.counters.epoch < c1.counters.epoch
             || (c1.counters.epoch == c.counters.epoch
                 && (c.gate.runId.Some? ==> c1.gate.runId == c.gate.runId || c.gate.runId.value in c1.desk.ended))
    ensures forall s :: s in c1.sources ==> OriginalOk(c1, s)
  {
    forall s | s in c1.sources
      ensures OriginalOk(c1, s)
    {
      assert s in c.sources ==> SourceOk(c, s) && OriginalOk(c, s);
    }
  }

  lemma RemoveStarts(pending: seq<Pending>, i: nat, sources: seq<EventSource>, epoch: nat)
    requires i < |pending| && StartsOk(pending, sources, epoch)
    ensures StartsOk(Remove(pending, i), sources, epoch)
  {
    var rest := Remove(pending, i);
    forall k | 0 <= k < |rest|
      ensures rest[k] == pending[if k < i then k else k + 1]
    {
    }
  }

  lemma PushStarts(pending: seq<Pending>, p: Pending, sources: seq<EventSource>, epoch: nat)
    requires StartsOk(pending, sources, epoch) && !p.Starting?
    ensures StartsOk(pending + [p], sources, epoch)
  {
  }

  lemma StartsAreFewer(c: Client, c1: Client)
    requires StartsOk(c.pending, c.sources, c.counters.epoch) && c1.pending == c.pending && c.counters.epoch <= c1.counters.epoch
    requires forall s :: s in c1.sources ==> s in c.sources || s.provided.None?
    ensures StartsOk(c1.pending, c1.sources, c1.counters.epoch)
  {
  }

  /** Nothing starts, and the tracked run stays or is left. */
  lemma StillTracking(c: Client, c1: Client)
    requires SourcesOk(c) && Tracking(c) && c1.pending == c.pending && c1.desk.ended == c.desk.ended
    requires forall s :: s in c1.sources ==> s in c.sources || s.provided.None?
    requires (c.counters.epoch < c1.counters.epoch && c1.gate.runId == None)
             || (c.counters.epoch == c1.counters.epoch && c1.gate.runId == c.gate.runId
                 && c1.conversation == c.conversation && c1.runConversation == c.runConversation)
    ensures Tracking(c1)
  {
    OriginalsKeep(c, c1);
    StartsAreFewer(c, c1);
  }

  /** One call less. */
  lemma RemoveKeeps(c: Client, server: Server, i: nat)
    requires Steady(c, server) && i < |c.pending|
    ensures Steady(c.(pending := Remove(c.pending, i)), server)
  {
    var c1 := c.(pending := Remove(c.pending, i));
    StillGood(c, c1, server);
    RemoveStarts(c.pending, i, c.sources, c.counters.epoch);
    OriginalsKeep(c, c1);
  }

  lemma CountedKeeps(c: Client, server: Server, reconnects: nat)
    requires Steady(c, server)
    ensures Steady(c.(counters := c.counters.(reconnects := reconnects)), server)
  {
    var c1 := c.(counters := c.counters.(reconnects := reconnects));
    StillGood(c, c1, server);
    StillTracking(c, c1);
  }

  lemma AskTracks(c: Client)
    requires SourcesOk(c) && Tracking(c)
    ensures Tracking(DoAsk(c))
  {
    OriginalsKeep(c, DoAsk(c));
    forall s | s in c.sources
      ensures SourceOk(c, s)
    {
    }
  }

  /** A start that is answered takes the gate from no current original stream. */
  lemma SourceOutdated(c: Client, server: Server, i: nat, r: RunId, works: bool, s: EventSource)
    requires Tracking(c) && Enabled(c, server, Answered(i, r, works)) && Orderly(c, server, Answered(i, r, works))
    requires s in c.sources && OriginalOf(c, s, s.run)
    ensures s.run in c.desk.ended || s.run == r
  {
    assert s.stamp != c.pending[i].epoch;
  }

  lemma AnsweredStarts(c: Client, server: Server, i: nat, r: RunId, works: bool)
    requires StartsOk(c.pending, c.sources, c.counters.epoch) && Enabled(c, server, Answered(i, r, works))
    ensures var c1 := DoAnswered(c, server, i, r, works); StartsOk(c1.pending, c1.sources, c1.counters.epoch)
  {
    var c1 := DoAnswered(c, server, i, r, works);
    AnsweredFields(c, server, i, r, works);
    RemoveStarts(c.pending, i, c.sources, c.counters.epoch);
    forall k | 0 <= k < |c1.pending| && c1.pending[k].Starting?
      ensures c1.pending[k].epoch != c.pending[i].epoch
    {
      var j := if k < i then k else k + 1;
      assert c1.pending[k] == c.pending[j];
    }
  }

  lemma AnsweredTracks(c: Client, server: Server, i: nat, r: RunId, works: bool)
    requires SourcesOk(c) && Tracking(c)
    requires Enabled(c, server, Answered(i, r, works)) && Orderly(c, server, Answered(i, r, works))
    ensures Tracking(DoAnswered(c, server, i, r, works))
  {
    var c1 := DoAnswered(c, server, i, r, works);
    AnsweredFields(c, server, i, r, works);
    forall s | s in c1.sources
      ensures OriginalOk(c1, s)
    {
      if s in c.sources {
        assert OriginalOk(c, s);
        if OriginalOf(c, s, s.run) { SourceOutdated(c, server, i, r, works, s); }
      }
    }
    AnsweredStarts(c, server, i, r, works);
  }

  lemma GoTracks(c: Client, to: Option<Conversation>)
    requires SourcesOk(c) && Tracking(c)
    ensures Tracking(DoGo(c, to))
  {
    OriginalsKeep(c, DoGo(c, to));
    StartsAreFewer(c, DoGo(c, to));
  }

  lemma ResumeTracks(c: Client, server: Server, generation: nat, conversation: Conversation, r: RunId, q: nat)
    requires SourcesOk(c) && Tracking(c) && LiveResume(c, server, r, q) && c.conversation == Some(conversation)
    ensures Tracking(Resume(c, generation, conversation, r, q))
  {
    if c.desk.ActiveRun() != Some(r) {
      PushStarts(c.pending, ReadingStatus(generation, conversation, r), c.sources, c.counters.epoch);
      OriginalsKeep(c, Resume(c, generation, conversation, r, q));
    }
  }

  lemma ReconnectTracks(c: Client, server: Server, readable: bool)
    requires Steady(c, server) && Enabled(c, server, Reconnect(readable)) && Orderly(c, server, Reconnect(readable))
    ensures Tracking(DoReconnect(c, c.conversation.value, readable))
  {
    var conversation, generation := c.conversation.value, c.counters.reconnects + 1;
    var stored := Stored(c, conversation, readable);
    CountedKeeps(c, server, generation);
    var c1 := c.(counters := c.counters.(reconnects := generation));
    if stored.None? {
      PushStarts(c1.pending, Discovering(generation, conversation), c1.sources, c1.counters.epoch);
      OriginalsKeep(c1, DoReconnect(c, conversation, readable));
    } else {
      ResumeTracks(c1, server, generation, conversation, stored.value.run, stored.value.last);
    }
  }

  lemma DiscoveredTracks(c: Client, server: Server, i: nat, r: RunId)
    requires Steady(c, server) && Enabled(c, server, Discovered(i, r)) && Orderly(c, server, Discovered(i, r))
    ensures Tracking(DoDiscovered(c, i, r))
  {
    var p, c1 := c.pending[i], c.(pending := Remove(c.pending, i));
    RemoveKeeps(c, server, i);
    if c.counters.reconnects == p.generation && c.conversation == Some(p.conversation) {
      ResumeTracks(c1, server, p.generation, p.conversation, r, 0);
    }
  }

  lemma StatusTracks(c: Client, server: Server, a: Action)
    requires Steady(c, server) && a.StatusRead? && Enabled(c, server, a)
    ensures Tracking(Move(c, server, a))
  {
    var p, c1 := c.pending[a.call], c.(pending := Remove(c.pending, a.call));
    RemoveKeeps(c, server, a.call);
    EnsuredHistory(c.desk, p.run, a.adopted, a.now);
    if CurrentCall(c, p) {
      if a.status == Live {
        StillTracking(c1, Move(c, server, a));
      } else {
        OriginalsKeep(c1, Move(c, server, a));
        StartsAreFewer(c1, Move(c, server, a));
      }
    }
  }

  lemma ReceiveTracks(c: Client, server: Server, r: RunId, e: LogEvent, provided: Option<SessionId>, works: bool, now: int)
    requires SourcesOk(c) && Tracking(c) && c.gate.runId == Some(r)
    ensures Tracking(Receive(c, r, e, provided, works, now))
  {
    if c.gate.Passes(r, e) {
      ReceivedHistory(c, r, e, provided, works, now);
      OriginalsKeep(c, Receive(c, r, e, provided, works, now));
    }
  }

  lemma DeliverTracks(c: Client, server: Server, i: nat, works: bool, now: int)
    requires Steady(c, server) && Enabled(c, server, Deliver(i, works, now)) && Orderly(c, server, Deliver(i, works, now))
    ensures Tracking(DoDeliver(c, server, i, works, now))
  {
    var s, c1 := c.sources[i], DoDeliver(c, server, i, works, now);
    if !Current(c, s) {
      StillTracking(c, c1);
    } else {
      CurrentServes(c, s);
      ReceiveTracks(c, server, s.run, server.Log(s.run)[s.next], s.provided, works, now);
      AdvanceTracks(Receive(c, s.run, server.Log(s.run)[s.next], s.provided, works, now), c.sources, i);
    }
  }

  lemma AdvanceTracks(c: Client, sources: seq<EventSource>, i: nat)
    requires Tracking(c) && c.sources == sources && i < |sources|
    ensures Tracking(c.(sources := sources[i := sources[i].(next := sources[i].next + 1)]))
  {
    var c1 := c.(sources := sources[i := sources[i].(next := sources[i].next + 1)]);
    forall x | x in c1.sources
      ensures OriginalOk(c1, x)
      ensures exists y :: y in sources && y.provided == x.provided && y.stamp == x.stamp
    {
      assert sources[i] in sources && OriginalOk(c, sources[i]);
      assert x in sources ==> OriginalOk(c, x);
    }
  }

  /** Orderly actions keep the invariant, and they are safe. */
  lemma OrderlyKeeps(c: Client, server: Server, a: Action)
    requires WellFormed(server) && Steady(c, server) && Enabled(c, server, a) && Orderly(c, server, a)
    ensures Safe(c, server, a) && Steady(Move(c, server, a), server)
  {
    OrderlyIsSafe(c, server, a);
    MoveKeeps(c, server, a);
    match a
    case Ask => AskTracks(c);
    case Answered(i, r, works) => AnsweredTracks(c, server, i, r, works);
    case Go(to) => GoTracks(c, to);
    case Reconnect(readable) => ReconnectTracks(c, server, readable);
    case Discovered(i, r) => DiscoveredTracks(c, server, i, r);
    case StatusRead(_, _, _, _, _) => StatusTracks(c, server, a);
    case GiveUp(i) => RemoveKeeps(c, server, i);
    case Resubscribe => StillTracking(c, Move(c, server, a));
    case Deliver(i, works, now) => DeliverTracks(c, server, i, works, now);
    case Drop(i) => StillTracking(c, Move(c, server, a));
    case Reload =>
  }

  lemma NewClientIsSteady(server: Server)
    ensures Steady(NEW_CLIENT, server)
  {
    NewClientIsGood(server);
  }
}
