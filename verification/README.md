# Verified models of the chat stream, the database-tool cutover and three text algorithms

This project models five pieces of the repository in Dafny 4.11 and proves what they promise. `dafny verify dfyconfig.toml`
checks all of it. Code that updates state step by step is modelled by classes and methods with loops
(`AssistantStream`, `ChatHook`, `Database`, `Hook`, `Placer`, `Reader`, the parser and editor loops); each is proved against a
function on values, and the theorems are about those functions, so they cover every input and every run.

**The durable-run chat stream** (`frontend/hooks/use-chat.ts`).
`ChatParts`, `Timeline` and `TimelineFacts` say what the event reducer computes: segments, reasoning blocks, sources and a table of task states,
finalisation, rendering to message parts, and rebuilding a state from parts. `AssistantStream` is the reducer in its own in-place form.
`StreamInvariants` and `StreamSteps` hold the invariant of every reachable state, `StreamTheorems` and `ToolTheorems` the results about
text, reasoning, finalisation and tools, `StreamEffects` and `StreamMarks` what each event shows, in any state and over whole runs, `Rebuild`
and `Reload` the bisimulation and the normal form of parts.
`Replay` is the reconnect protocol as a state machine whose steps are the hook's callbacks and whose environment (server logs, network,
session storage, reloads, user) chooses freely; `ChatHook` is the same layer in place. The results come in three layers, each with the exact
condition for one step to keep it. `ReplayTheorems` is about the gate alone: what passes it, over any number of pages, is a prefix of each
run's log, as long as every step is `Safe`. `ReplaySessions` is about sessions and their identities: each gets one stretch of the log and
shows its text, as long as every step `Continues` one. `ReplayWhole` is about one message showing everything, as long as every step `Gathers`.
`ReplayTracking`, `ReplayTidy` and the second half of `ReplayWhole` give conditions that a user or a server can keep (`Orderly`, `Tidy`,
`Undivided`) and that make every step one of these; `ReplayStorage` says that working session storage makes coming back safe.
`ReplayLimits` says how exactly replay fails otherwise, and `ReplaySchedules` has concrete schedules. `ReplayEffects` says, for every schedule,
safe or not, what an event that passes does to the session it reaches, and what is outdated when a conversation is left.

**The database-tool cutover** (`backend/app/core/database_tool_migration.py`, with the policies of
`backend/app/schemas/tool_approval.py`). `ApprovalPolicy` and `ApprovalTheorems`: flattening and strict merging of policies is a least upper
bound. `ReferenceRewrite`: references are rewritten in one pass whatever the order, and `ReferenceItems` says what a redirected one looks like,
key by key. `Cutover` and `CutoverTheorems`: the migration as a
transaction over tables, and what a successful run guarantees.

**The license policy parser** (`backend/scripts/check_licenses.py`): `LicenseParser` proves the indent stack against the declared nesting;
`LicenseDocuments` and `LicenseText` prove that a document written as a file, with any comments, is read back as that document.

**The prompt editor** (`frontend/components/prompt-variable-editor.tsx`): `PromptEditor` proves the round trip between text and document,
`Caret` the one between positions and carets on document trees, and `CaretText` that positions are indexes into the text.

**The workflow run hook** (`frontend/hooks/use-workflow-run.ts`): `WorkflowRun` proves what a run's events leave in the chat,
`WorkflowEffects` what single events show there and what a run leaves in the trace and the panel.

## Where the code differs from what it promises

The models follow the code. Where a promise fails, a lemma names the input or the family of inputs, and the promise is proved outside it.

- Replay is exactly once as long as a started run is the tracked one or new, a run is resumed only where the gate lets through exactly what did
  not pass yet (or its session is the active one anyway), and no current stream of a run that is not tracked lags behind. These conditions are
  exact for every step and over every schedule (`MoveKeeps`, `DeliverKeeps`, `SafeRunsAreGood`), and breaking one makes the next event of the run pass
  twice or be skipped, for a run that is not tracked (`ResumedExactlyInPlace`, `AnsweredExactlyFresh`, `LateStreamRepeats`). Without a readable snapshot a known run is
  replayed from sequence 0 (`LostSnapshotRepeats`); with working session storage, and a server that names the newest run of a conversation, that
  cannot happen, in any page (`SnapshotsSuffice`). `LeavingWithoutStorage` and `SubscriptionOutrunsOriginal` are schedules that lead there.
- A reconnect that overtakes the answer of a start opens a second session for the same run, and the message of the start loses what the
  other one is handed, exactly if the other one is the active session (`MessageIsSplit`, `FocusDuringStartSplits`). One message
  shows everything as long as each event reaches the session that got the others (`MoveWhole`, `OneMessageShowsAll`).
- After a reload that resumes from a stored snapshot, the new message shows only what its message was made from and what passes from
  there on (`NewPageShowsTheRest`).
- A settled tool call can be reopened, and can even run again, once it is marked as waiting for the user (`SettledUnlessAsked`,
  `AskedCallRunsAgain`). A table that was right comes to say `completed` beside a waiting call exactly when the user is asked
  after the run ended or the run ends after the user was asked, and to count too few calls exactly when a question is restored (`TableMatchesTools`, `CompletedWithPendingCall`).
- An error finalises a copy of the state, so a thought that was open at the error goes on growing afterwards (`AssistantStream.MarkError`).
- A late call replaces a reloaded MCP call of the same id, so the order of call and result matters exactly there
  (`CallAndResultCommute`), and parts that mix both kinds need a second normalisation (`MixedKindsNeedTwoPasses`).
- A state that was not finalised does not survive rebuilding: an ended thought is still the open one (`UnfinalisedRebuildDiverges`).
- The cutover's documentation says that approval can only become more restrictive. Flattening does not look at an override inside an
  override, which the evaluator follows, so that holds for operations overridden once (`MergeNeverRelaxes`), and for an operation overridden
  twice, whatever is in force there, only if the merge denies (`InnerOverrideIsIgnored`).
- Merging is independent of order in what it enforces, but a denial that comes last no longer prevents the error of too many gates
  (`DenialFirstSucceeds`).
- A legacy tool named like the builtin of another engine is retired under that name and adopted, disabled, as that builtin
  (`RetiredNamesakeIsAdopted`). The run reports a taken name exactly if, when some legacy tool is due, the name it needs is held by a custom
  tool that stays one, an MCP tool, or a legacy tool that is met later (`TakenNameFailsTheRun`, `NamesakeComesFirst`).
- The caret placed after a variable or a line break reads back as the start of the enclosing element (`CaretRoundTrip`,
  `CaretAfterVariable`).
- A workflow node's call settles only while it stands in the last message (`CallSettlesInLastMessage`).

## Model

| member | source | states |
|---|---|---|
| AssistantStreams.AssistantStream.FindToolSegment | frontend/hooks/use-chat.ts:2196-2201 | the search returns the first segment whose call or result has the id, or reports that there is none |
| AssistantStreams.AssistantStream.AddToolCall | frontend/hooks/use-chat.ts:2418-2433 | a call updates the first segment of its id in place or opens one; terminal states and known fields survive a duplicate |
| AssistantStreams.AssistantStream.AddToolResult | frontend/hooks/use-chat.ts:2435-2475 | a result joins the first segment of its id, whose call takes the result's outcome |
| AssistantStreams.AssistantStream.AddCitations | frontend/hooks/use-chat.ts:2445-2467 | cited sources are added in order, each id once, known ids skipped |
| AssistantStreams.AssistantStream.UpdateLatestTask | frontend/hooks/use-chat.ts:2140-2158 | the backward search changes the last task of the type only |
| AssistantStreams.AssistantStream.EnsureLatestTask | frontend/hooks/use-chat.ts:2160-2177 | the last task of the type is updated, or one is appended |
| AssistantStreams.AssistantStream.PatchReasoning | frontend/hooks/use-chat.ts:2318-2356 | a block's change reaches the one segment of its index |
| AssistantStreams.AssistantStream.ApplyEvent | frontend/hooks/use-chat.ts:2275-2515 | the in-place reducer computes the state function on every event, and reports a change |
| AssistantStreams.AssistantStream.FinalizeStreaming | frontend/hooks/use-chat.ts:2615-2651 | the three closing loops compute finalisation |
| AssistantStreams.AssistantStream.MarkError | frontend/hooks/use-chat.ts:612-651 | a running compression fails, and progress is finalised, but the open thought stays current |
| AssistantStreams.AssistantStream.MarkAskUserPending | frontend/hooks/use-chat.ts:2203-2213 | only an ask_user call without a result becomes pending, and that is reported |
| AssistantStreams.AssistantStream.HydratePendingAskUser | frontend/hooks/use-chat.ts:2215-2241 | a run that waits for ask_user shows its question, with a segment of its own if it has none, and reports whether it is pending; any other run changes nothing |
| AssistantStreams.AssistantStream.BuildMessageParts | frontend/hooks/use-chat.ts:2517-2564 | the pushing loop renders the segments in order, then the sources once streaming is over |
| AssistantStreams.AssistantStream.LoadPart | frontend/hooks/use-chat.ts:2011-2114 | one stored part is put back into segments, blocks and task table |
| AssistantStreams.AssistantStream.FromMessage | frontend/hooks/use-chat.ts:2011-2122 | the constructor from parts computes the rebuilt state |
| StreamSteps.StepKeeps | frontend/hooks/use-chat.ts:2275-2515 | every step keeps the invariant: one segment per tool id, call and result of one id and one outcome, mirror of thoughts and blocks, task table linked to the last task of each kind, text segments never adjacent |
| StreamSteps.RunKeeps | frontend/hooks/use-chat.ts:2187-2194 | the invariant holds in every state reachable from a state that has it, and the timeline is only extended |
| StreamTheorems.StepText | frontend/hooks/use-chat.ts:2358-2373 | in any state, a step adds exactly the characters it carries to the end of the text |
| StreamTheorems.StreamedTextIsShown | frontend/hooks/use-chat.ts:2517-2564 | over every run the rendered text is the concatenation of all content deltas and iteration-cap contents |
| StreamTheorems.ReasoningIsMirrored | frontend/hooks/use-chat.ts:2304-2356 | thoughts and blocks correspond one to one in order with equal contents, the open block is the last, and the reasoning shown is what was streamed, also before any start and after an end |
| StreamTheorems.FinalizeSettles | frontend/hooks/use-chat.ts:2615-2651 | after any run finalisation leaves nothing running or streaming, keeps text, ids, order and sources, and is idempotent |
| StreamTheorems.TimelineOnlyGrows | frontend/hooks/use-chat.ts:2275-2515 | kinds and ids of a reachable timeline stay in place for ever |
| StreamEffects.CallIsShown | frontend/hooks/use-chat.ts:2418-2433 | in any state the announced call stands in the first segment of its id, or in a new one at the end: its name, display name and input are the event's, or the earlier ones where the event has none; a terminal call stays terminal, an MCP call is replaced, and no other segment changes |
| StreamEffects.StoredCallIsShown | frontend/hooks/use-chat.ts:2243-2273 | the same for a stored call of either kind |
| StreamEffects.ResultIsShown | frontend/hooks/use-chat.ts:2435-2475 | the result stands in the first segment of its id, whose call keeps everything but its state, or in a new one |
| StreamEffects.QuestionIsShown | frontend/hooks/use-chat.ts:2203-2213 | an unanswered ask_user call becomes pending, and nothing else changes |
| StreamEffects.QuestionIsRestored | frontend/hooks/use-chat.ts:2215-2241 | a restored question is pending, in its segment or in a new one with its input |
| StreamEffects.TaskIsShown | frontend/hooks/use-chat.ts:2140-2177 | retrieval and compression open a running task; their ends complete the last one, with their info, or add a completed one; the table and the sources follow |
| StreamEffects.AnswerIsShown | frontend/hooks/use-chat.ts:2358-2373 | the first text opens the answer's task and completes a running retrieval |
| StreamEffects.ThoughtIsShown | frontend/hooks/use-chat.ts:2304-2356 | a reasoning delta extends the open block or opens one, and an end closes it with the time since its start |
| StreamEffects.StepMirrored | frontend/hooks/use-chat.ts:2275-2515 | thoughts and blocks correspond after every step from any state in which they do, rebuilt states included |
| StreamEffects.FinishCloses | frontend/hooks/use-chat.ts:2615-2651 | in any such state finalisation makes running calls done, running tasks completed and open thoughts closed with their time, and changes nothing else |
| StreamEffects.FailureCloses | frontend/hooks/use-chat.ts:612-651 | an error fails a running compression and then closes everything that is open |
| StreamMarks.MarksAreShown | frontend/hooks/use-chat.ts:2486-2515 | over every run the displayed media, truncation and iteration-cap notices and instructions are those the run brought, all of them, in order |
| StreamMarks.SourcesAreCited | frontend/hooks/use-chat.ts:2445-2467 | a result adds each source it cites that is not known yet, once, in order; only a retrieval replaces the sources |
| StreamMarks.MessageIsRendered | frontend/hooks/use-chat.ts:2517-2564 | in any state every task is shown in order, over once streaming is unless it failed; text is marked as streaming or not; the sources come last and only after streaming |
| ToolTheorems.CallAndResultCommute | frontend/hooks/use-chat.ts:2257-2296 | in any state a call and a result of one id commute on segments and sources if and only if the id is not held by an MCP call |
| ToolTheorems.SettledUnlessAsked | frontend/hooks/use-chat.ts:2203-2213 | in every reachable state a settled call stays settled over a step if and only if the step does not mark that very call as waiting for the user |
| ToolTheorems.AskedCallRunsAgain | frontend/hooks/use-chat.ts:2203-2213 | a concrete run in which a done call becomes pending and then running |
| ToolTheorems.CompletedUnlessOverlooked | frontend/hooks/use-chat.ts:2203-2241 | any step makes `completed` untrue if and only if it asks about a settled call of a completed table or ends the run of a waiting one |
| ToolTheorems.CountedUnlessMiscounted | frontend/hooks/use-chat.ts:2215-2241 | any step makes the count of calls wrong if and only if it restores a question that has no segment yet |
| ToolTheorems.TableMatchesTools | frontend/hooks/use-chat.ts:2418-2485 | over every run: `completed` means all along that every call is terminal, and toolCallCount counts the call segments all along, if and only if no step is of those kinds |
| ToolTheorems.UnaskedRunsMatch | frontend/hooks/use-chat.ts:2418-2485 | without questions to the user no call ever waits, and the table is right after every run |
| ToolTheorems.CompletedWithPendingCall | frontend/hooks/use-chat.ts:2203-2213 | the two shortest runs after which the table says completed beside a waiting call |
| Rebuild.SimilarStep | frontend/hooks/use-chat.ts:2275-2515 | states that differ in start times of old thoughts and empty text stay so under every step |
| Rebuild.SimilarRenders | frontend/hooks/use-chat.ts:2517-2564 | such states render the same parts |
| Reload.LoadRendering | frontend/hooks/use-chat.ts:2011-2122 | loading a rendering brings every visible segment back, in order, whatever calls and results it holds |
| StreamMarks.RebuiltTable | frontend/hooks/use-chat.ts:2011-2122 | the table of a rebuilt state shows the last stored task of each kind, and calls over if all are terminal |
| StreamMarks.RebuiltThought | frontend/hooks/use-chat.ts:2018-2034 | a rebuilt state goes on with the last stored thought if and only if that was still streaming |
| Reload.RebuildIsBisimilar | frontend/hooks/use-chat.ts:2011-2122 | for every finalised session the state rebuilt from its message renders the same parts after any further steps |
| Reload.UnfinalisedRebuildDiverges | frontend/hooks/use-chat.ts:2342-2356 | without finalisation a rebuilt state can render differently after one delta |
| Reload.FixpointIffAgreeing | frontend/hooks/use-chat.ts:2054-2100 | normalising any parts is stable after one pass if and only if every call in the state loaded from them agrees with its result; `UnmixedIsFixpoint` is a condition on the parts themselves |
| Reload.TwoPassesSuffice | frontend/hooks/use-chat.ts:2054-2100 | for any parts in any order and number, two passes are stable |
| Reload.UnmixedIsFixpoint | frontend/hooks/use-chat.ts:2243-2273 | one pass is stable when no tool id mixes MCP and plain calls |
| Reload.FinalMessageIsNormal | frontend/hooks/use-chat.ts:2517-2564 | the message of a finalised session is stable at once |
| Reload.MixedKindsNeedTwoPasses | frontend/hooks/use-chat.ts:2257-2265 | a concrete mixed message that a second pass changes |
| ChatHooks.ChatHook.TrackRun | frontend/hooks/use-chat.ts:322-338 | tracking another run resets the last sequence and the applied keys; tracking the same run does not |
| ChatHooks.ChatHook.StoreRunSnapshot | frontend/hooks/use-chat.ts:308-315 | the snapshot of the run's conversation holds the run and its last sequence, if storage works |
| ChatHooks.ChatHook.PassGate | frontend/hooks/use-chat.ts:709-725 | an event passes if its key was not applied and it is past the last sequence; passing marks it |
| ChatHooks.ChatHook.ApplyIncomingEvent | frontend/hooks/use-chat.ts:709-968 | a passed event reaches exactly one session; the end of a run untracks it and clears its snapshot |
| ChatHooks.ChatHook.OnEvent | frontend/hooks/use-chat.ts:970-1012 | a stream whose epoch or generation is outdated changes nothing |
| ChatHooks.ChatHook.DisconnectLocalSubscription | frontend/hooks/use-chat.ts:1043-1052 | all three counters move, so every open stream and every waiting reconnect is outdated |
| ChatHooks.ChatHook.StartSubscription | frontend/hooks/use-chat.ts:970-1041 | the new stream starts after the last sequence and outdates the previous subscription |
| ChatHooks.ChatHook.SendMessage | frontend/hooks/use-chat.ts:1382-1449 | a message closes the gate, opens a session that has no run yet, and moves the epoch |
| ChatHooks.ChatHook.OnStarted | frontend/hooks/use-chat.ts:1449-1466 | the answer names the session's run and tracks it whatever happened meanwhile; the stream opens where the gate stands unless the start is outdated |
| ChatHooks.ChatHook.SetConversation | frontend/hooks/use-chat.ts:1193-1216 | leaving the run's conversation closes the gate, outdates all streams and forgets the active session, but keeps the registered ones |
| ChatHooks.ChatHook.ReconnectToRun | frontend/hooks/use-chat.ts:1054-1096 | a reconnect continues from the tracked position, else from the snapshot, else asks the server |
| ChatHooks.ChatHook.OnStatus | frontend/hooks/use-chat.ts:1096-1164 | an outdated answer changes nothing, a run that is over is closed, with its error shown if it failed, and a live one gets its session and a subscription |
| ReplayTheorems.FreshGateFits | frontend/hooks/use-chat.ts:714-725 | a gate that just began to track a run lets through exactly what did not pass yet if and only if it stands right behind it |
| ReplayTheorems.PassedStaysOut | frontend/hooks/use-chat.ts:714-725 | an event that passed does not pass again while its run is tracked, whatever its sequence |
| ReplayTheorems.DeliverKeeps | frontend/hooks/use-chat.ts:709-731 | a delivery leaves what passed a prefix of every log if and only if its stream is outdated, serves the tracked run, or does not lag behind what passed |
| ReplayTheorems.MoveKeeps | frontend/hooks/use-chat.ts:709-1216 | any callback, user action or reload keeps what passed a prefix of every log, the gate of the tracked run right behind it and no stream ahead of it, if and only if it is safe |
| ReplayTheorems.SafeRunsAreGood | frontend/hooks/use-chat.ts:709-1216 | a schedule is safe if and only if all this holds all along it |
| ReplayTheorems.ExactlyOnce | frontend/hooks/use-chat.ts:709-731 | after every safe schedule of starts, subscriptions, drops, retries, overlaps, conversation switches and reloads, what passed of each run is a prefix of its log |
| ReplayTracking.CurrentServes | frontend/hooks/use-chat.ts:976-980 | a stream that is not outdated serves the tracked run until the run has ended: subscriptions by their generation, original streams by the epoch |
| ReplayTracking.OrderlyKeeps | frontend/hooks/use-chat.ts:709-1216 | orderly steps are safe and keep the tracked run live and at home, and every current original stream of a live run on it |
| ReplaySessions.MoveSeats | frontend/hooks/use-chat.ts:709-1216 | a safe step keeps each session at one stretch of its run's log, the one served last reaching to the end of what passed, if and only if a passing event reaches a session that got nothing or the event before, and a start is answered for a session that got nothing of another run |
| ReplaySessions.ContinuingRunsAreRight | frontend/hooks/use-chat.ts:709-1216 | the schedules of such steps are exactly those along which sessions and gate are right |
| ReplaySessions.ShownTextIsLogText | frontend/hooks/use-chat.ts:2517-2564 | after every such schedule, also after the run's end, a session's message shows its first text and then exactly the text of one stretch of the log, which for the session served last reaches to the end of what passed |
| ReplayTidy.EnsuredServes | frontend/hooks/use-chat.ts:399-469 | the ensured session is active, registered and serves its run, and no session changes its run or what it got |
| ReplayTidy.TidyRunContinues | frontend/hooks/use-chat.ts:1382-1466 | if nothing is sent while a subscription is current, and no start takes the gate from one or is put beside a registered session, every orderly schedule is safe and continues stretches |
| ReplayWhole.MoveWhole | frontend/hooks/use-chat.ts:709-1216 | such a step keeps everything that passed of a run in this page in one session if and only if a passing event reaches the session that got the others, or an empty one if none did |
| ReplayWhole.GatheringRunsAreWhole | frontend/hooks/use-chat.ts:709-1216 | the schedules of such steps are exactly those along which everything that passed of each run in this page is in one session |
| ReplayWhole.OneMessageShowsAll | frontend/hooks/use-chat.ts:2517-2564 | after a schedule of such steps one message shows the text of everything that passed of its run, across finalisations and after the end |
| ReplayWhole.NewPageShowsTheRest | frontend/hooks/use-chat.ts:1059-1096 | after a reload at any point, a message of the new page shows what it was made from and then exactly what passes from there on |
| ReplayWhole.UndividedRunGathers | frontend/hooks/use-chat.ts:399-469 | unless a second session is opened beside a start, every tidy schedule consists of such steps |
| ReplayWhole.MessageIsSplit | frontend/hooks/use-chat.ts:711-729 | when the original stream and a subscription of one run meet, both events reach the start's message if and only if its session is the active one |
| ReplaySchedules.FocusDuringStartSplits | frontend/hooks/use-chat.ts:1086-1164 | a focus event during a start leads there from a new client, and the start's message misses the first event |
| ReplaySchedules.LeavingWithoutStorage | frontend/hooks/use-chat.ts:1193-1216 | leaving and coming back without storage leads to a client that replays a known run from its start |
| ReplaySchedules.SubscriptionOutrunsOriginal | frontend/hooks/use-chat.ts:889-930 | a subscription that delivers the end first leads to a late original stream that lags behind |
| ReplayLimits.ResumedExactlyInPlace | frontend/hooks/use-chat.ts:1054-1096 | resuming an untracked run keeps what passed a prefix of the log if and only if the position is where the gate stood |
| ReplayLimits.AnsweredExactlyFresh | frontend/hooks/use-chat.ts:1449-1466 | an answered start keeps what passed a prefix of the log if and only if nothing of the run had passed |
| ReplayLimits.LostSnapshotRepeats | frontend/hooks/use-chat.ts:1062-1078 | without a snapshot a known run is replayed from its start and its first event passes twice |
| ReplayLimits.LateStreamRepeats | frontend/hooks/use-chat.ts:713-719 | an event of a run that is not tracked, because it ended or another one took the gate, passes again; what passed stays a prefix if and only if the stream did not lag behind |
| ReplayStorage.NewestIsFresh | frontend/hooks/use-chat.ts:308-338 | with working storage, nothing was received of a live run that is the newest of a conversation without a snapshot |
| ReplayStorage.FriendlyIsOrderly | frontend/hooks/use-chat.ts:1054-1096 | so with working storage, and a server that names the newest run, resuming from a snapshot, from the gate or from the server's answer is in place |
| ReplayStorage.SnapshotsSuffice | frontend/hooks/use-chat.ts:308-338 | then conversations may be left and re-entered and the page reloaded at any time, and every run's log passes exactly once |
| ReplayEffects.PassedEventIsShown | frontend/hooks/use-chat.ts:709-968 | after any schedule, safe or not, an event that passes changes only the session it reaches: a streamed event by the reducer; the end of a message or of the run by closing all that is open; an error, an accepted input and a question each as the reducer's theorems say |
| ReplayEffects.StatusIsShown | frontend/hooks/use-chat.ts:1096-1164 | a live run's session shows the question it waits for, a failed one's the error; any other answer changes no session |
| ReplayEffects.EnsuredShowsMessage | frontend/hooks/use-chat.ts:399-469 | the ensured session shows what it had, or the stored message where it is new or still empty |
| ReplayEffects.AskingSilences | frontend/hooks/use-chat.ts:1382-1449 | after any schedule, asking for a run silences every open stream and opens an empty active session beside the others |
| ReplayEffects.LeavingOutdates | frontend/hooks/use-chat.ts:1043-1052 | leaving the run's conversation outdates every stream and every waiting request of a reconnect for good, also when the user comes back |
| ReplayEffects.DeliveryStores | frontend/hooks/use-chat.ts:308-320 | a passing event stores where its run stands, save a streamed one that no session hears; the end of the run clears the snapshot |
| ReplayEffects.ReconnectStaysHome | frontend/hooks/use-chat.ts:1054-1096 | a reconnect takes up the run tracked in its own conversation, or that of its snapshot, or asks |
| ApprovalPolicy.MergeGates | backend/app/core/database_tool_migration.py:221-244 | the index-dictionary loop tightens the last gate of the same spelling or appends |
| ApprovalPolicy.Flatten | backend/app/core/database_tool_migration.py:162-181 | the override loop folds decisions and gates, and drops gates unless approval is required |
| ApprovalPolicy.MergePolicies | backend/app/core/database_tool_migration.py:192-218 | the accumulator loop merges the present policies in order and stops at the first failure |
| ApprovalTheorems.MergedGatesEnforceBoth | backend/app/core/database_tool_migration.py:221-244 | the merged gates ask exactly the audiences of both lists, with self-approval only where every gate allows it, also with duplicates |
| ApprovalTheorems.DedupeEnforcesTheSame | backend/app/schemas/tool_approval.py:229-252 | the policy validator keeps one gate per audience and changes nothing about what is enforced |
| ApprovalTheorems.AudienceIsWhoIsAsked | backend/app/schemas/tool_approval.py:372-381 | two gates have one audience if and only if they are of one kind and name the same users, or the same roles |
| ApprovalTheorems.CallerIsAsked | backend/app/core/database_tool_migration.py:162-218 | what asks nobody, an empty policy, a merge of none, an approval without gates, asks the caller |
| ApprovalTheorems.SupIsLeast | backend/app/core/database_tool_migration.py:192-201 | the join of effects is their least upper bound in strictness |
| ApprovalTheorems.FlattenIsJoin | backend/app/core/database_tool_migration.py:162-181 | a flattened policy enforces the join of its default and all overrides, and exists exactly if that has at most twenty audiences |
| ApprovalTheorems.MergeIsJoin | backend/app/core/database_tool_migration.py:192-218 | the merge succeeds exactly when no step has more than twenty audiences, and then enforces the join of all layers of all policies, or the default |
| ApprovalTheorems.MergeNeverRelaxes | backend/app/core/database_tool_migration.py:192-198 | for every input policy and operation overridden at most once the merged decision ranks at least as high and every gate in force reappears, asking the same users or the same roles, with no looser self-approval |
| ApprovalTheorems.MergeIsLeast | backend/app/core/database_tool_migration.py:192-218 | nothing weaker than the merge is as strict as every input |
| ApprovalTheorems.InnerOverrideIsIgnored | backend/app/core/database_tool_migration.py:162-181 | whatever policy is in force for an operation that an input overrides twice, the merge is the same: safe for every such policy if and only if it denies |
| ApprovalTheorems.OrderDoesNotMatter | backend/app/core/database_tool_migration.py:192-218 | order and repetition of the inputs do not change what the merge enforces, nor whether it succeeds unless something denies |
| ApprovalTheorems.SucceedsByResult | backend/app/schemas/tool_approval.py:250-252 | without a denial the merge succeeds if and only if its result has at most twenty audiences |
| ApprovalTheorems.DenialFirstSucceeds | backend/app/core/database_tool_migration.py:199-218 | two crowds and a denial fail in one order and succeed in the other |
| ApprovalTheorems.OneByOneIsOneMerge | backend/app/core/database_tool_migration.py:606-615 | merging legacy policies into the target one at a time succeeds in the same cases and enforces the same as one merge |
| ReferenceRewrite.RewriteItems | backend/app/core/database_tool_migration.py:251-288 | the index loop redirects every entry that names the tool, and reports a change exactly if there is one |
| ReferenceRewrite.RewriteWorkflow | backend/app/core/database_tool_migration.py:291-331 | the node loop redirects every tool node that names the tool and touches nothing but the node list |
| ReferenceRewrite.RewriteDefinition | backend/app/core/database_tool_migration.py:798-809 | migration after migration, and the change flag says whether the definition differs |
| ReferenceRewrite.RewriteAgent | backend/app/core/database_tool_migration.py:724-765 | all migrations over one agent; it fails exactly if a converted builtin would be attached twice |
| ReferenceRewrite.RewritingIsOnePass | backend/app/core/database_tool_migration.py:711-742 | rewriting by every migration in turn redirects each item once, by the migration it names, and keeps length, order and all other items |
| ReferenceRewrite.RewritingIsComplete | backend/app/core/database_tool_migration.py:711-786 | afterwards no custom or MCP item names a migrated tool, and a second pass changes nothing |
| ReferenceRewrite.RewritingInAnyOrder | backend/app/core/database_tool_migration.py:711-742 | the order of the migrations does not matter |
| ReferenceRewrite.RewrittenItem | backend/app/core/database_tool_migration.py:264-287 | a redirected item uses the builtin, keeps everything else and an explicit connection choice, and otherwise takes the migrated connection if there is just one |
| ReferenceRewrite.AttachableMeansOnce | backend/app/core/database_tool_migration.py:742-761 | the per-key count lets an agent through if and only if no two entries attach the same converted builtin |
| ReferenceRewrite.DefinitionIsRewritten | backend/app/core/database_tool_migration.py:291-331 | the whole definition: no node uses a migrated tool, nothing but the nodes changed, a second pass changes nothing |
| ReferenceItems.EntryStep | backend/app/core/database_tool_migration.py:251-288 | an agent entry of a custom or MCP tool with the migrated id becomes the builtin's: the tool's and the server's ids go, a chosen connection stays with its mode, else the migrated one is chosen, and every other key stays; any other entry stays as it is |
| ReferenceItems.NodeStep | backend/app/core/database_tool_migration.py:291-331 | the same for a tool node, with the id and the connection under either spelling, and nothing of the node but its configuration changes |
| ReferenceItems.OtherNodeStep | backend/app/core/database_tool_migration.py:291-331 | a node without a configuration is left alone |
| ReferenceItems.NoBuiltinTwice | backend/app/core/database_tool_migration.py:742-761 | an agent may keep its tools if and only if no builtin that replaced a tool stands in two of its entries |
| Cutover.Database.ClearRetiredType | backend/app/core/database_tool_migration.py:514-520 | the retired custom type is cleared on every row |
| Cutover.Database.RekeyConnections | backend/app/core/database_tool_migration.py:568-592 | the tool's connections are re-keyed in order of creation, failing on configuration, default clash or scope |
| Cutover.Database.MigrateTool | backend/app/core/database_tool_migration.py:538-683 | one legacy tool: target found or created, connections moved or created, policy merged, row converted or retired |
| Cutover.Database.RewriteAgents | backend/app/core/database_tool_migration.py:724-765 | every agent is rewritten, or one of them would attach a builtin twice |
| Cutover.Database.Migrate | backend/app/core/database_tool_migration.py:831-860 | the run as a transaction: a failure leaves every table as it was |
| Cutover.RekeyKeeps | backend/app/core/database_tool_migration.py:397-435 | re-keying keeps id, scope, team, owner, name and default flag, and touches only the tool's own connections |
| CutoverTheorems.RowsMigrated | backend/app/core/database_tool_migration.py:538-683 | after any number of migrations every definition's enabled flag, version and policy are those its merged tools determine |
| CutoverTheorems.SecondRunChangesNothing | backend/app/core/database_tool_migration.py:831-860 | a second run finds no legacy tool and changes no table |
| CutoverTheorems.DefinitionsKeepTheirIdentity | backend/app/core/database_tool_migration.py:623-673 | no row is deleted or renamed; legacy rows end as builtin rows without configuration, retired ones disabled |
| CutoverTheorems.EnabledIffAllWere | backend/app/core/database_tool_migration.py:616-670 | a definition is enabled if and only if it was, every tool merged into it was, and the run did not retire it |
| CutoverTheorems.VersionGrows | backend/app/core/database_tool_migration.py:616-670 | a definition's version grows if and only if it was converted or something merged into it |
| CutoverTheorems.VersionCounts | backend/app/core/database_tool_migration.py:616-670 | and by one for each conversion and each merge |
| CutoverTheorems.CreatedDefinition | backend/app/core/database_tool_migration.py:347-371 | a created definition is a builtin of nobody's without configuration, with the policies of builtins and of all merged tools, enabled if and only if all of those were |
| CutoverTheorems.NoDatabaseToolIsLeft | backend/app/core/database_tool_migration.py:505-536 | no row of the retired type and no untyped custom tool with a configuration is left |
| CutoverTheorems.ConnectionsKeepTheirIdentity | backend/app/core/database_tool_migration.py:397-435 | no connection is lost; each keeps id, scope, team, owner, name and default flag; those of a legacy tool serve its builtin with the secret made of theirs and the tool's, as the default of their scope, team and owner if they were one; all others are untouched |
| CutoverTheorems.OrphansGetTheirOwn | backend/app/core/database_tool_migration.py:438-480 | the legacy tools without a connection get one each and no other connection is made: it serves the tool's builtin in its team with the secret made of its configuration and credentials, and is the creator's own if and only if the tool is private and has one |
| CutoverTheorems.DefaultSlotsStayDistinct | backend/app/core/database_tool_migration.py:404-424 | default slots stay pairwise distinct |
| CutoverTheorems.ApprovalNeverRelaxes | backend/app/core/database_tool_migration.py:606-615 | what a legacy tool demanded for an operation, the definition it merged into demands after the run |
| CutoverTheorems.TargetNeverRelaxes | backend/app/core/database_tool_migration.py:606-615 | what a definition itself demanded, it still demands |
| CutoverTheorems.ReferencesAreRewritten | backend/app/core/database_tool_migration.py:711-786 | after the run no agent, workflow or version uses a migrated tool, and no agent attaches a converted builtin twice |
| CutoverTheorems.TakenNameFailsTheRun | backend/app/core/database_tool_migration.py:347-371 | the run reports a taken name if and only if the migrations before some legacy tool succeed and the name that tool needs is held by a row that will not have become a builtin by then |
| CutoverTheorems.NamesakeComesFirst | backend/app/core/database_tool_migration.py:347-371 | whatever else fails, the run fails if a custom tool that stays one, an MCP tool or a legacy tool met later holds the name that a legacy tool needs |
| CutoverTheorems.ProblemOf | backend/app/core/database_tool_migration.py:538-560 | an unknown engine, a missing team and a builtin that is not to be had are each reported exactly when they are the first problem |
| CutoverTheorems.ConnectionProblem | backend/app/core/database_tool_migration.py:397-435 | a connection is re-keyed if and only if its secrets merge, it is no default whose scope, team and owner have one already, and its scope goes with its team and owner; otherwise the first of these is reported |
| CutoverTheorems.RetiredNamesakeIsAdopted | backend/app/core/database_tool_migration.py:347-363 | two enabled legacy tools whose merged definition ends disabled |
| LicenseParser.StripComment | backend/scripts/check_licenses.py:37-51 | the quote-flag loop cuts at the first `#` outside quotes and drops trailing space |
| LicenseParser.Parent | backend/scripts/check_licenses.py:79-85 | the declared parent: the nearest earlier opening line of smaller indent with no line of equal or smaller indent in between, or the root |
| LicenseParser.PopDeeper | backend/scripts/check_licenses.py:82-85 | popping leaves the declared parent of the line on top of a stack of strictly increasing indents |
| LicenseParser.PlaceLine | backend/scripts/check_licenses.py:87-122 | a line is written into its parent and may open a container; it is at fault exactly if its kind and its parent's disagree or its date is impossible |
| LicenseParser.ParseLines | backend/scripts/check_licenses.py:71-124 | the result holds, for every container, exactly what the lines that belong to it put into it in order; or the first line at fault is reported, and only then |
| LicenseParser.ParsePolicyFile | backend/scripts/check_licenses.py:71-124 | the same for a file with comments and blank lines |
| LicenseDocuments.DocumentIsRead | backend/scripts/check_licenses.py:71-124 | every document of nested mappings and lists, written as indented lines, is parsed without a fault, and its containers mean the document |
| LicenseText.ScalarRoundTrip | backend/scripts/check_licenses.py:54-68 | every text, plain or in either kind of quotes, flag, calendar date and empty container is read back |
| LicenseText.DatesOfTheCalendar | backend/scripts/check_licenses.py:66-67 | what looks like a date is one if and only if the calendar has it |
| LicenseText.LineRoundTrip | backend/scripts/check_licenses.py:78-122 | every written line is read back: indent, dash, key and value |
| LicenseText.TailIsCut | backend/scripts/check_licenses.py:37-51 | a comment behind text with closed quotes is cut off with the blanks before it, and nothing else is |
| LicenseText.FileMeansDocument | backend/scripts/check_licenses.py:71-124 | a file that spells a document, with any comments and blank lines, is parsed without a fault and means that document |
| LicenseText.DocumentRoundTrip | backend/scripts/check_licenses.py:71-124 | every writable document written as a file and parsed means itself |
| PromptEditor.ParseVariableReferences | frontend/components/prompt-variable-editor.tsx:47-58 | the references are the names of the tokens, each where it occurs first |
| PromptEditor.ReferencesAreNames | frontend/components/prompt-variable-editor.tsx:47-58 | they are the variables of the tags the same text is rendered with, in order |
| PromptEditor.FirstOccurrencesAreFirst | frontend/components/prompt-variable-editor.tsx:47-58 | every name once, none lost, in the order of their first places |
| PromptEditor.Split | frontend/components/prompt-variable-editor.tsx:85-118 | the scanning loop yields the tokens and the gaps between them |
| PromptEditor.PiecesPartition | frontend/components/prompt-variable-editor.tsx:85-118 | tokens and gaps put together are the text |
| PromptEditor.PiecesAreTokensAndGaps | frontend/components/prompt-variable-editor.tsx:43-44 | tokens are non-empty words in braces, gaps hold no token, and no two gaps are adjacent |
| CaretText.NamesOfAllKinds | frontend/components/prompt-variable-editor.tsx:43-44 | a name in double braces is a reference exactly if it is made of letters, digits, underscores, dots and hyphens |
| PromptEditor.EscapingIsPerCharacter | frontend/components/prompt-variable-editor.tsx:75-83 | the six replacements in their order escape every character exactly once |
| PromptEditor.EscapedTextIsRead | frontend/components/prompt-variable-editor.tsx:75-83 | read as markup, escaped text is the text with its line breaks |
| PromptEditor.WordsAreNotEscaped | frontend/components/prompt-variable-editor.tsx:105-106 | the `data-variable` attribute carries the name itself |
| PromptEditor.HtmlToText | frontend/components/prompt-variable-editor.tsx:127-178 | the recursive pushing of parts computes the reading of any document tree, block elements included |
| PromptEditor.TextSurvives | frontend/components/prompt-variable-editor.tsx:85-178 | for every text and variable map, reading back the rendered document gives the text without zero-width spaces, and the text itself if and only if it has none |
| CaretText.DocumentTags | frontend/components/prompt-variable-editor.tsx:85-118 | every variable tag of a rendered document stands between two text nodes |
| CaretText.TagShows | frontend/components/prompt-variable-editor.tsx:95-110 | a tag shows the known name of its variable, or the name in the text, and the note on it |
| CaretText.BlocksBreakLines | frontend/components/prompt-variable-editor.tsx:150-170 | a block element stands on a line of its own |
| Caret.Placer.TraverseAll | frontend/components/prompt-variable-editor.tsx:235-286 | the placing traversal with its captured counter stops where the position function says |
| Caret.Reader.TraverseAll | frontend/components/prompt-variable-editor.tsx:180-230 | the reading traversal with its captured counter counts what the reading function says |
| Caret.SetCursorPosition | frontend/components/prompt-variable-editor.tsx:235-298 | the range that is set, if any |
| Caret.GetCursorPosition | frontend/components/prompt-variable-editor.tsx:180-233 | the position that is read for any caret, inside or outside the editor |
| Caret.PlacedAtLeaf | frontend/components/prompt-variable-editor.tsx:235-286 | the caret is placed if and only if some leaf ends at the target or after it, and stands in a text node if and only if the first such leaf is one |
| Caret.CaretRoundTrip | frontend/components/prompt-variable-editor.tsx:180-298 | on every tree the placed caret stands inside its node, and is read back exactly if and only if the first leaf that ends at the target or after it is a text node or the target is 0 |
| Caret.CaretAfterVariable | frontend/components/prompt-variable-editor.tsx:256-267 | after a variable in the editor the caret reads back as 0 |
| CaretText.TextTakesWidth | frontend/components/prompt-variable-editor.tsx:180-230 | the text read from any document is as long as it has caret positions and line breaks that block elements add |
| CaretText.PositionIndexesText | frontend/components/prompt-variable-editor.tsx:180-233 | without block elements, a caret in a text node reads back as the length of the text before it, a prefix of the whole text, if and only if no zero-width space stands before it in its node |
| CaretText.CaretSplitsText | frontend/components/prompt-variable-editor.tsx:235-298 | a caret placed at a position of a text node splits the text there |
| CaretText.DocumentWidth | frontend/components/prompt-variable-editor.tsx:85-118 | the document of a text has one caret position for each visible character |
| CaretText.CaretInTag | frontend/components/prompt-variable-editor.tsx:212-218 | a caret inside a variable tag reads back as the position before it |
| WorkflowRun.Hook.Start | frontend/hooks/use-workflow-run.ts:169-213 | a start clears refs and trace and keeps the old messages |
| WorkflowRun.Hook.Reset | frontend/hooks/use-workflow-run.ts:128-146 | a reset empties everything but the started nodes |
| WorkflowRun.Hook.HandleWorkflowEvent | frontend/hooks/use-workflow-run.ts:222-569 | the in-place handler computes messages, refs, trace and status on every event |
| WorkflowRun.EventStep | frontend/hooks/use-workflow-run.ts:222-569 | a set message ref stays at the last, assistant message; an event adds exactly the characters it shows and at most one call |
| WorkflowRun.RunProduces | frontend/hooks/use-workflow-run.ts:169-569 | over every run, on top of any chat, the assistant's text grows by exactly the answer tokens and workflow errors in order, and calls by those of nodes that start for the first time |
| WorkflowRun.CallsAreDistinct | frontend/hooks/use-workflow-run.ts:237-314 | no node id gets two calls in a run, also when a resumed pause starts it again |
| WorkflowRun.CallSettlesInLastMessage | frontend/hooks/use-workflow-run.ts:375-507 | a running call settles when its node ends if and only if it stands in the last message |
| WorkflowEffects.StartIsShown | frontend/hooks/use-workflow-run.ts:237-314 | a first start adds the node's call, with its type, its title or type, its input, to the current message or a new one |
| WorkflowEffects.TokenIsShown | frontend/hooks/use-workflow-run.ts:316-372 | an answer token continues the last text of the current message or opens one; other tokens show nothing |
| WorkflowEffects.CompletionIsShown | frontend/hooks/use-workflow-run.ts:375-455 | a completed node finishes the texts and settles its running calls of the last message and adds its result under the names of its first call there |
| WorkflowEffects.FailureIsShown | frontend/hooks/use-workflow-run.ts:457-507 | a failed node settles its calls as failed, adds the error as its result and ends the message |
| WorkflowEffects.TraceFollows | frontend/hooks/use-workflow-run.ts:222-569 | over every run the trace holds exactly the nodes that started, each with the type, title and input of its last start and the status, output, duration, error and tokens since |
| WorkflowEffects.CountersFollow | frontend/hooks/use-workflow-run.ts:222-569 | the trace counts the completions since the workflow started last, and points at the node that started last |
| WorkflowEffects.PanelFollows | frontend/hooks/use-workflow-run.ts:222-569 | the panel shows the last word on the run's state, whether it streams, and its last outputs and error |

## Left out

- LicenseText.DocumentRoundTrip: texts that hold both kinds of quotes, keys that hold quotes, list items that hold a colon, and list items whose first entry is a container are not written.
- ReplaySessions.ShownTextIsLogText: the text an adopted message already had is taken as given.
- ReplayTidy.TidyRunContinues: its conditions are sufficient, not necessary (`ReplaySessions.MoveSeats` has the exact one): a message is sent only while no subscription is current, which the status shown to the user is there to ensure and which is not modelled; an answered start finds no current subscription to another run, and its session is not the active one beside a registered session of the run; a retry is for the active session.
- ReplayWhole.UndividedRunGathers: its conditions are sufficient, not necessary; `ReplayWhole.MoveWhole` has the exact one.
- ReplayStorage.SnapshotsSuffice: for schedules that are tidy and in which no stream of an ended run delivers; no other tab writes the snapshots, a start is answered with a new run or the tracked one, a discovery takes the gate from no other run, and no snapshot of its conversation is stored while it is under way.
- ChatHooks.ChatHook.ApplyIncomingEvent: events that create a session from a message id are absent, and run_end is a finalisation whatever status it carries.
- Reload.FixpointIffAgreeing: its condition is on the state loaded from the parts, not on the parts.
- ToolTheorems.CallAndResultCommute: says nothing about the order's effect on the table of task states but that the later call leaves `toolCalling` running.
- ApprovalTheorems.MergeNeverRelaxes: operations overridden at most once; `InnerOverrideIsIgnored` is the other case.
- CutoverTheorems.ApprovalNeverRelaxes: the same restriction; a legacy tool without a policy counts as asking its caller.
- CutoverTheorems.TargetNeverRelaxes: the same restriction.
- Cutover.Database.MigrateTool: the descriptive columns of a converted row and the result counters are absent.
- CutoverTheorems.EnabledIffAllWere: assumes the uniqueness constraints of the tools table.
- Chat: network, stream parsing, retry timers, React rendering and animation frames are the free choices of the protocol's environment.
- Chat: the error shown when a start fails, and the finalisation of a session whose original stream ends without the run's end.
- Chat: events without an envelope, events that create a session from a message id, queued run inputs, local stop, editing, regenerating and reloading messages.
- Chat: one clock reading per step, so all blocks that one finalisation closes end at the same time; message ids, metadata and usage data.
- Chat: run_end is modelled as finalisation whatever its status; the stop mark and the error part a failed or stopped run appends are not modelled.
- Chat: citation extraction and the display test for media results are taken as arbitrary, their outcomes are part of the event.
- Cutover: how configurations and secrets merge, placeholders, encryption, engine names and the builtin registry are parameters; counters, log messages and the advisory lock are left out.
- Cutover: the descriptive columns of a converted row (description, parameters, icon, category, identity policy) are left out.
- Cutover: malformed JSON on which the code raises a type or attribute error (a list as a tool type, a node whose data is no object) is left out; such nodes count as having no configuration.
- Cutover: the list of ambiguous references is only logged and not modelled.
- Approval: the validators of stored policies other than those of gates (names and number of overrides, nesting depth, approver limits) are left out; parsed policies are taken to satisfy them.
- License parser: splitting the file into lines, decimal digits outside ASCII, and what is made of the parsed policy.
- Prompt editor: of the browser's markup parser only what escaped text needs; its treatment of carriage returns and null characters, the styling of tags, and variable completion.
- Caret: the browser's selection; a missing selection, and negative targets for the round trip.
- Workflow run: message ids, times, connection errors, cancellation, and the translation of error messages.
- Other parts of the repository would add only case tables or library wrappers.
