/** The hook layer itself: the refs of the chat hook, updated in place by its callbacks and proved
    against the replay protocol.
  */
module ChatHooks {
  import opened Options
  import opened ChatParts
  import opened Timeline
  import opened Replay
  import opened ReplayTheorems

  class ChatHook {
    var conversationId: Option<Conversation>
    var activeRunConversation: Option<Conversation>
    var runId: Option<RunId>
    var lastSequence: nat
    var appliedSequenceKeys: set<(RunId, nat)>
    var connectionEpoch: nat
    var reconnectGeneration: nat
    var subscriptionGeneration: nat
    var desk: Desk
    var snapshots: map<Conversation, Snapshot>
    var sources: seq<EventSource>
    var pending: seq<Pending>

    ghost function Contents(): Client
      reads this
    {
      Client(conversationId, activeRunConversation, Gate(runId, lastSequence, appliedSequenceKeys),
             Counters(connectionEpoch, reconnectGeneration, subscriptionGeneration), desk, snapshots, sources, pending)
    }

    constructor ()
      ensures Contents() == NEW_CLIENT
    {
      conversationId, activeRunConversation, runId, lastSequence, appliedSequenceKeys := None, None, None, 0, {};
      connectionEpoch, reconnectGeneration, subscriptionGeneration := 0, 0, 0;
      desk, snapshots, sources, pending := NO_SESSIONS, map[], [], [];
    }

    method StoreRunSnapshot(works: bool)
      modifies this`snapshots
      ensures Contents() == StoreSnapshot(old(Contents()), works)
    {
      if runId.None? || activeRunConversation.None? {
        return;
      }
      if works {
        snapshots := snapshots[activeRunConversation.value := Snapshot(runId.value, lastSequence)];
      }
    }

    method ClearStoredRunSnapshot()
      modifies this`snapshots
      ensures Contents() == ClearSnapshot(old(Contents()))
    {
      if activeRunConversation.Some? {
        snapshots := snapshots - {activeRunConversation.value};
      }
    }

    /** A run that is not tracked yet resets the sequence gate. */
    method TrackRun(nextRunId: RunId, conversation: Option<Conversation>)
      modifies this`runId, this`lastSequence, this`appliedSequenceKeys, this`activeRunConversation
      ensures var c := old(Contents());
              Contents() == c.(gate := c.gate.Track(nextRunId),
                               runConversation := if conversation.Some? then conversation else c.runConversation)
    {
      if runId != Some(nextRunId) {
        runId := Some(nextRunId);
        lastSequence := 0;
        appliedSequenceKeys := {};
      }
      if conversation.Some? {
        activeRunConversation := conversation;
      }
    }

    /** Every stream that is open is outdated afterwards, and so is every reconnect that waits. */
    method DisconnectLocalSubscription()
      modifies this`connectionEpoch, this`reconnectGeneration, this`subscriptionGeneration
      ensures Contents() == old(Contents()).(counters := Disconnect(old(Contents()).counters))
      ensures SourcesOk(old(Contents())) ==> forall s :: s in sources ==> !Current(Contents(), s)
      ensures forall p :: p in pending && p.ReadingStatus? && p.generation <= old(reconnectGeneration) ==> !CurrentCall(Contents(), p)
    {
      ghost var before := Contents();
      connectionEpoch := connectionEpoch + 1;
      reconnectGeneration := reconnectGeneration + 1;
      subscriptionGeneration := subscriptionGeneration + 1;
      assert SourcesOk(before) ==> forall s :: s in sources ==> SourceOk(before, s);
    }

    /** The new stream starts after the last sequence seen, and outdates the one before. */
    method StartSubscription(server: Server, targetRunId: RunId)
      modifies this`subscriptionGeneration, this`sources
      ensures Contents() == Replay.StartSubscription(old(Contents()), server, targetRunId)
    {
      subscriptionGeneration := subscriptionGeneration + 1;
      sources := sources + [EventSource(targetRunId, None, subscriptionGeneration, After(server.Log(targetRunId), lastSequence))];
    }

    /** The sequence gate of `applyIncomingEvent`. */
    method PassGate(run: RunId, e: LogEvent) returns (passed: bool)
      modifies this`runId, this`lastSequence, this`appliedSequenceKeys, this`activeRunConversation
      ensures var c := old(Contents());
              && passed == c.gate.Passes(run, e)
              && Contents() == c.(gate := if passed then c.gate.Marked(run, e) else c.gate.Track(run))
    {
      if runId.Some? && runId != Some(run) {
        lastSequence := 0;
        appliedSequenceKeys := {};
      }
      TrackRun(run, None);
      if (run, e.sequence) in appliedSequenceKeys {
        return false;
      }
      if lastSequence != 0 && e.sequence <= lastSequence {
        return false;
      }
      appliedSequenceKeys := appliedSequenceKeys + {(run, e.sequence)};
      if lastSequence < e.sequence {
        lastSequence := e.sequence;
      }
      passed := true;
    }

    /** Behind the gate: the session gets the event, if there is one; the end of the run untracks it. */
    method HandOn(run: RunId, e: LogEvent, session: Option<SessionId>, works: bool, now: int)
      modifies this`runId, this`desk, this`snapshots
      ensures var c := old(Contents());
              Contents() == Recorded(c, c.gate, c.desk.Received(session, run, e, now), e.payload, session.Some?, works)
    {
      if session.Some? {
        desk := desk.Handed(session.value, run, e, now);
      }
      desk := desk.Noted(run, e);
      if e.payload.RunEnd? {
        ClearStoredRunSnapshot();
        desk := desk.Closed(run);
        runId := None;
        return;
      }
      if session.None? && e.payload.Streamed? {
        return;
      }
      StoreRunSnapshot(works);
    }

    /** `applyIncomingEvent` */
    method ApplyIncomingEvent(run: RunId, e: LogEvent, providedSession: Option<SessionId>, works: bool, now: int)
      modifies this`runId, this`lastSequence, this`appliedSequenceKeys, this`activeRunConversation, this`desk, this`snapshots
      ensures Contents() == Receive(old(Contents()), run, e, providedSession, works, now)
    {
      var session := if providedSession.Some? then providedSession else desk.active;
      var passed := PassGate(run, e);
      if passed {
        HandOn(run, e, session, works, now);
      }
    }

    /** A stream's callback: silent once it is outdated. */
    method OnEvent(server: Server, i: nat, works: bool, now: int)
      requires i < |sources| && sources[i].next < |server.Log(sources[i].run)|
      modifies this
      ensures Contents() == DoDeliver(old(Contents()), server, i, works, now)
    {
      var s := sources[i];
      var current := if s.provided.Some? then s.stamp == connectionEpoch
                     else s.stamp == subscriptionGeneration && runId == Some(s.run);
      if !current {
        sources := Remove(sources, i);
        return;
      }
      ApplyIncomingEvent(s.run, server.Log(s.run)[s.next], s.provided, works, now);
      Advance(i);
    }

    method Advance(i: nat)
      requires i < |sources|
      modifies this`sources
      ensures Contents() == old(Contents()).(sources := old(sources)[i := old(sources)[i].(next := old(sources)[i].next + 1)])
    {
      sources := sources[i := sources[i].(next := sources[i].next + 1)];
    }

    /** `sendMessage` up to the request: the gate is closed and a session opened. */
    method SendMessage()
      modifies this
      ensures Contents() == DoAsk(old(Contents()))
    {
      runId, lastSequence, appliedSequenceKeys := None, 0, {};
      connectionEpoch := connectionEpoch + 1;
      pending := pending + [Starting(connectionEpoch, desk.made)];
      desk := desk.Opened();
    }

    /** The server started the run: it is tracked, and its stream opened unless the start is outdated. */
    method OnStarted(server: Server, i: nat, run: RunId, works: bool)
      requires i < |pending| && pending[i].Starting? && run in server.home
      modifies this
      ensures Contents() == DoAnswered(old(Contents()), server, i, run, works)
    {
      var p := pending[i];
      TrackStarted(server, i, run, works);
      if p.epoch == connectionEpoch {
        sources := sources + [EventSource(run, Some(p.session), p.epoch, After(server.Log(run), lastSequence))];
      }
    }

    method TrackStarted(server: Server, i: nat, run: RunId, works: bool)
      requires i < |pending| && pending[i].Starting? && run in server.home
      modifies this`runId, this`lastSequence, this`appliedSequenceKeys, this`activeRunConversation, this`conversationId,
               this`pending, this`desk, this`snapshots
      ensures var c, home := old(Contents()), Some(server.home[run]);
              Contents() == StoreSnapshot(
                c.(pending := Remove(c.pending, i), gate := c.gate.Track(run), desk := c.desk.Named(c.pending[i].session, run),
                   conversation := home, runConversation := home), works)
    {
      desk := desk.Named(pending[i].session, run);
      pending := Remove(pending, i);
      TrackRun(run, Some(server.home[run]));
      StoreRunSnapshot(works);
      conversationId := Some(server.home[run]);
    }

    /** The conversation changes; leaving that of the tracked run drops everything local about it. */
    method SetConversation(to: Option<Conversation>)
      modifies this
      ensures Contents() == DoGo(old(Contents()), to)
    {
      if activeRunConversation.Some? && activeRunConversation != to {
        DisconnectLocalSubscription();
        runId, lastSequence, appliedSequenceKeys := None, 0, {};
        desk := desk.(active := None);
      }
      conversationId := to;
    }

    /** The part of `reconnectToRun` after the run and its position are known. */
    method ResumeRun(generation: nat, conversation: Conversation, stored: Snapshot)
      modifies this
      ensures Contents() == Resume(old(Contents()), generation, conversation, stored.run, stored.last)
    {
      if desk.ActiveRun() == Some(stored.run) {
        return;
      }
      TrackRun(stored.run, Some(conversation));
      lastSequence := stored.last;
      pending := pending + [ReadingStatus(generation, conversation, stored.run)];
    }

    /** `reconnectToRun` up to its first `await`. */
    method ReconnectToRun(conversation: Conversation, readable: bool)
      modifies this
      ensures Contents() == DoReconnect(old(Contents()), conversation, readable)
    {
      reconnectGeneration := reconnectGeneration + 1;
      var stored := None;
      if activeRunConversation == Some(conversation) && runId.Some? {
        stored := Some(Snapshot(runId.value, lastSequence));
      } else if readable && conversation in snapshots {
        stored := Some(snapshots[conversation]);
      }
      if stored.None? {
        pending := pending + [Discovering(reconnectGeneration, conversation)];
      } else {
        ResumeRun(reconnectGeneration, conversation, stored.value);
      }
    }

    /** The server named the conversation's active run, which is then replayed from its start. */
    method OnDiscovered(i: nat, run: RunId)
      requires i < |pending| && pending[i].Discovering?
      modifies this
      ensures Contents() == DoDiscovered(old(Contents()), i, run)
    {
      var p := pending[i];
      pending := Remove(pending, i);
      if reconnectGeneration != p.generation || conversationId != Some(p.conversation) {
        return;
      }
      ResumeRun(p.generation, p.conversation, Snapshot(run, 0));
    }

    /** The server answered with the status of the run: a live one is shown and subscribed to, one that
        is over is closed, with its error shown if it failed. */
    method OnStatus(server: Server, i: nat, status: RunStatus, asking: Option<(string, Payload)>, adopted: seq<Part>, now: int)
      requires i < |pending| && pending[i].ReadingStatus?
      modifies this
      ensures Contents() == DoStatus(old(Contents()), server, i, status, asking, adopted, now)
    {
      var p := pending[i];
      pending := Remove(pending, i);
      if !(reconnectGeneration == p.generation && conversationId == Some(p.conversation)
           && activeRunConversation == Some(p.conversation) && runId == Some(p.run)) {
        return;
      }
      if status != Live {
        CloseRun(p.run, status == Failed, adopted, now);
        return;
      }
      desk := desk.Ensured(p.run, adopted, now);
      desk := desk.Asked(asking, now);
      StartSubscription(server, p.run);
    }

    method CloseRun(run: RunId, failed: bool, adopted: seq<Part>, now: int)
      modifies this
      ensures var c := old(Contents());
              var d := if failed then c.desk.Ensured(run, adopted, now).Touched(Failure, now) else c.desk;
              Contents() == ClearSnapshot(c.(gate := c.gate.(runId := None), counters := Disconnect(c.counters), desk := d.Closed(run)))
    {
      if failed {
        desk := desk.Ensured(run, adopted, now);
        desk := desk.Touched(Failure, now);
      }
      ClearStoredRunSnapshot();
      DisconnectLocalSubscription();
      desk := desk.Closed(run);
      runId := None;
    }

    /** Another page of the same tab: everything is new but the stored snapshots (and the history). */
    constructor Reloaded(hook: ChatHook)
      ensures Contents() == DoReload(hook.Contents())
    {
      conversationId, activeRunConversation, runId, lastSequence, appliedSequenceKeys := None, None, None, 0, {};
      connectionEpoch, reconnectGeneration, subscriptionGeneration := 0, 0, 0;
      desk, snapshots, sources, pending := hook.desk.Reloaded(), hook.snapshots, [], [];
    }
  }
}
