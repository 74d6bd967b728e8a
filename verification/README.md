# A model of the session turn runtime and its durable history

`durable-acp` hosts coding agents: it serializes the turns of a session, turns provider output into a
journal, and lets a restarted host pick up where the last one stopped. This project models the part of
it that carries state and proves what that part promises:

- **Turns and queue** (`turns.dfy`, `managed.dfy`, `machine.dfy`, `queue.dfy`, `requests.dfy`, `waiting.dfy`,
  `provider.dfy`, `regions.dfy`). One
  session as a transition system whose steps are the regions that hold the runtime's lock. `Turns` has
  one function for each region, `ManagedSession` is the mutable session proved against them, `Machines`
  adds the scheduled dispatch goroutines and the books of the queue, and `Provider` adds the submissions
  and turns in flight at an adapter that keeps the contract of `host/types.go`, and the journal that the
  run writes. `LockRegions` says what happens between the two lock regions of failSubmission and of the
  interrupt fallback.
- **Restore** (`restore.dfy`, `recordlaws.dfy`, `refines.dfy`, `hosts.dfy`, `closing.dfy`, `misread.dfy`,
  `stored.dfy`, `ondisk.dfy`). The loop that rebuilds
  a session from its journal and closes the turn it was in, proved to refine the live session, with the
  exact condition, a run that fails it, and any number of hosts on one journal; `stored.dfy` and
  `ondisk.dfy` take the same statement through the bytes of the journal file.
- **Delta coalescer** (`coalesce.dfy`, `schedule.dfy`, `streams.dfy`, `streamindex.dfy`). Buffered
  streaming under a timer that may fire at any moment, compared with a reference that has no timer.
- **Replay matcher** (`replay.dfy`, `recording.dfy`, `resume.dfy`, `nexthost.dfy`). The greedy, ordered matcher that keeps replayed
  history from being journaled twice.
- **Journal store** (`file.dfy`, `durable.dfy`, `progress.dfy`, `crashes.dfy`, `cursors.dfy`). The journal as a sequence of bytes: torn
  tails, cursors, the ring-buffer tail, the cached writer, and appends that fail half way.
- **Call table** (`calls.dfy`). JSON-RPC calls, responses, cancels and closes in every interleaving.

`text.dfy`, `session.dfy`, `host.dfy`, `journal.dfy`, `names.dfy`, `outcomes.dfy` and `lists.dfy` hold what these share:
trimming, UTF-8 length, decimal IDs, the status table, events, records, and the translation from events to
records.

Check it with `dafny verify dfyconfig.toml`.

## Hypotheses

The code does not give the properties below without these; each is a `requires`, part of `Provider.Contract`,
or a choice of steps.

- Live-session theorems are about events without the replay mark. What a replayed event does to the matcher
  is `ReplayMatcher.Suppress`.
- `Start` with a prompt is called on an idle session and succeeds (`Machines.StartsIdle`).
- `Restart` and `Close` are one step each, and the adapter's part in them succeeds. During a restart the
  adapter starts no turn.
- For serialized turns, the adapter contract: a `SendTurn` that fails has started no turn, and the terminal
  event of a turn carries its ID and comes while the turn runs (`Provider.Contract`). They need one thing
  more, which that contract does not say: the provider's process does not exit while a submission is
  outstanding. `SerialExactlyWhenExitsAreIdle` shows that this is exactly what is missing, and
  `ExitDuringSubmissionDoublesTurns` reaches two submissions at the provider from every session at which
  it happens.
- `failSubmission` together with its event, and the interrupt fallback's check together with its event, are
  one step each. The source uses two lock regions for each of them; `LockRegions` shows exactly which steps in
  between are harmless and what the others do.
- Restore asks nothing of the adapter. Events have no dotted type (`Refines.Ordinary`), and agreement of journal
  and live session holds if and only if every move is `Refines.Traced`. That is: turn IDs of turn starts are
  trimmed; requested interactions are identified; answers carry a request ID when a question is pending; a
  permission event that carries an interaction repeats the pending one (it is pending after a restore, and
  never in the live session); and no failed submission meets an active turn while the provider's last turn ID is
  another, nonempty one. `Refines.ConformingRunsAreTraced` shows that `Refines.WellFormed` events under the adapter
  contract with idle exits are always traced.
- `deliver` fills in an event's identity and applies it in one step; turn events pass the coalescer at once.
- Events are journaled in the order in which they changed the session.
- For the replay index, the assistant's messages carry the role `assistant` or `agent`, one session and one
  thread, and final snapshots are not blank.
- For crash durability, a line is encoded without a newline and decodes to its record (`Lawful`), and reducing
  an already normalized record reaches the same state (`Deterministic`), as the store's documentation asks.

## Where code and documentation differ

- `README.md:198` promises one provider turn at a time without a condition; see the process exit above.
- `README.md:321-322` promises replay matching that is ordered within session, conversation, backend thread and
  event kind. The code keeps one cursor for all of them: two persisted events of different streams, replayed in the
  other order, keep the order within each stream, and the second one is taken for new
  (`Resume.StreamsShareOneCursor`). `Resume.GreedyMatchingIsComplete` is the exact condition under which a replay
  matches in full.

## Model

| member | source | states |
|---|---|---|
| `Sessions.Session.Transition` | session/session.go:75-85 | a transition succeeds exactly for the edges of the table; a refused one names both statuses and changes nothing |
| `Sessions.EdgesExactly` | session/session.go:34-61 | the legal edges, one by one: every open session can be closed, nothing leaves closed, and turns go between active, running and waiting |
| `Managed.ManagedSession.constructor` | runtime/runtime.go:251-256 | a new session is active, idle, unblocked, with an empty queue |
| `Managed.ManagedSession.Send` | runtime/runtime.go:337-391 | rejects empty requests, closed sessions and full queues without any change; queues behind or in front when busy or blocked; otherwise reserves the provider |
| `Managed.ManagedSession.DispatchQueued` | runtime/runtime.go:1359-1371 | takes the head of the queue and reserves the provider exactly when the session is open, idle, unblocked and has a queue |
| `Managed.ManagedSession.Stamp` | runtime/runtime.go:1214-1232 | fills in session, backend and turn ID only where they are missing, and never gives a turn start an ID |
| `Managed.ManagedSession.DeliverNow` | runtime/runtime.go:1264-1308 | the whole new session for every kind of event, stale terminals ignored, and whether a dispatch is due; no discarded transition error is ever an error |
| `Managed.ManagedSession.EndTurn` | runtime/runtime.go:1298-1304 | a terminal event clears both flags, the turn ID and the pending interaction, and leaves the turn statuses by a legal edge |
| `Managed.ManagedSession.Deliver` | runtime/runtime.go:1207-1262 | an event is stamped and then applied |
| `Managed.ManagedSession.FailSubmission` | runtime/runtime.go:1448-1467 | a failed submission frees the session and delivers a turn failure |
| `Managed.ManagedSession.DiscardQueue` | runtime/runtime.go:399-407 | Interrupt empties the queue and nothing else, and reports whether a turn is active |
| `Managed.ManagedSession.InterruptFallback` | runtime/runtime.go:1482-1493 | a failure event is delivered only for the turn that was interrupted, if it is still active |
| `Managed.ManagedSession.StartResponse` | runtime/runtime.go:477-483 | answering moves a waiting session back to running, and reports whether the answered interaction is the pending one |
| `Managed.ManagedSession.RemoveQueuedTurn` | runtime/runtime.go:549-579 | removes the first entry with the ID, keeps the others in order, and reports the remaining depth |
| `Managed.ManagedSession.ReplaceQueuedTurn` | runtime/runtime.go:581-610 | replaces the request of the entry in place; an empty request or an unknown ID changes nothing |
| `Managed.ManagedSession.BlockDispatch` | runtime/runtime.go:612-627 | blocks dispatch and changes nothing else |
| `Managed.ManagedSession.UnblockDispatch` | runtime/runtime.go:629-648 | unblocks, and dispatches exactly when an idle open session has a queue |
| `Managed.ManagedSession.Close` | runtime/runtime.go:718-726 | closes by a legal edge, drops the turn and the queue; closing again changes nothing |
| `Managed.ManagedSession.BeginStart` | runtime/runtime.go:286-299 | a start is refused on a closed session, and reserves the provider exactly when it has a prompt |
| `Managed.ManagedSession.SubmitReturned` | runtime/runtime.go:1435-1437 | the provider's turn is kept as the last one |
| `Managed.ManagedSession.RestartProvider` | runtime/runtime.go:650-687 | a restart is refused on a closed session or with a turn on; otherwise the provider's last turn is taken over and nothing else changes |
| `Machines.FlagsAndStatusAgree` | runtime/runtime.go:379-381 | in every run, from any adapter: an open session is active iff it has a turn ID iff its status is running or waiting for input, and never active and dispatching at once |
| `Machines.StepKeepsCoupling` | runtime/runtime.go:1275-1306 | each step keeps flags, turn identity and status coupled |
| `Machines.FailureKeepsCoupling` | runtime/runtime.go:1448-1457 | a failed submission keeps them coupled |
| `Machines.NoLostWakeup` | runtime/runtime.go:1344-1379 | in every run an open, unblocked, idle session with queued turns has a dispatch scheduled, and that dispatch submits the head of the queue |
| `Machines.StepKeepsAwake` | runtime/runtime.go:629-648 | no step leaves a dispatchable queue without a scheduled dispatch |
| `Machines.InterruptsDoNotStick` | README.md:229-232 | after a successful interrupt the session is not in the interrupted turn, its queue is kept, and any other turn is untouched |
| `Machines.ClosedForGood` | runtime/runtime.go:718-725 | a closed session stays closed with an empty queue, in every run |
| `Machines.RunStaysCoupledAndAwake` | runtime/runtime.go:337-391 | both invariants hold along every legal run from any state that has them |
| `QueueBooks.EveryEntryHasOnePlace` | runtime/runtime.go:361-377 | in every run the queue stays within its limit, no entry ID is issued twice, and each issued ID is exactly one of queued, dispatched once, removed or cleared |
| `QueueBooks.NoOvertaking` | README.md:200-206 | once a is ahead of b, b is not dispatched while a is queued, whatever is sent next, replaced or removed in between |
| `QueueBooks.SentQueue` | runtime/runtime.go:361-377 | Send goes behind every queued turn and SendNext in front of every one, under a new ID, and the reported depth is the queue's |
| `QueueBooks.RemovedQueue` | runtime/runtime.go:561-576 | removing takes out one entry and keeps the order of the rest |
| `QueueBooks.ReplacedQueue` | README.md:205 | replacing changes the request of one entry and neither IDs nor positions; an empty request or an unknown ID changes nothing |
| `QueueBooks.DispatchedQueue` | runtime/runtime.go:1366-1370 | a dispatch takes the head of the queue |
| `Requests.RequestsAreKept` | README.md:203-206 | over every run, what is queued, dispatched, returned by a removal or discarded under an ID carries the request of the Send that was given the ID, or of the last Replace of it that succeeded |
| `Requests.SendAnswers` | runtime/runtime.go:345-390 | which requests are refused and why, queued, or submitted; what is taken is the caller's request, and a refusal changes nothing |
| `Requests.QueuedEntriesCanBeChanged` | runtime/runtime.go:561-607 | exactly the queued IDs can be removed or replaced, the latter with a request that is not empty |
| `Requests.BlockedSubmitsNothing` | README.md:207-208 | over every run without an Unblock, a blocked session submits nothing by Send or from the queue |
| `Requests.BlockHolds` | runtime/runtime.go:612-627 | and so it is from a Block on |
| `Requests.UnblockResumes` | runtime/runtime.go:629-648 | after an Unblock a waiting queue has its dispatch, and an idle session takes a Send |
| `Requests.DispatchIsDueExactly` | runtime/runtime.go:1294-1305 | an event asks for a dispatch if and only if it is terminal, meant for the turn, and finds a queue that is not blocked |
| `Requests.EventsTakeTheSessionsIdentity` | runtime/runtime.go:1214-1232 | an event keeps what it says of itself, and takes session, backend and turn from the session where it says nothing |
| `Requests.LateEventsNameTheLastTurn` | runtime/runtime.go:1226-1232 | over every run, an event without a turn that finds the session idle is about the turn submitted last |
| `Waiting.WaitsForItsQuestion` | runtime/runtime.go:1285-1289 | over every run, an open session waits for input if and only if it is in a turn, a question was asked in that turn, and no answer has been sent since |
| `Waiting.StepWaits` | runtime/runtime.go:480-482 | which steps make a session wait, keep it waiting, or end that |
| `QueueBooks.FreshIDsAreDistinct` | runtime/runtime.go:367-368 | the next entry ID is unused and those issued are all different |
| `QueueBooks.StepBooks` | runtime/runtime.go:1362-1368 | every step keeps the books of the queue balanced |
| `QueueBooks.StepWaits` | runtime/runtime.go:1366-1367 | every step keeps two queued entries in order |
| `Provider.OneTurnAtATime` | README.md:198 | every run has at most one turn reserved or running at the provider, a turn in flight means dispatching or active, and the running turn is the session's |
| `Provider.SerialExactlyWhenExitsAreIdle` | host/types.go:241-245 | under the adapter contract a move keeps turns serialized if and only if it is not a process exit with a submission outstanding |
| `Provider.ExitDuringSubmissionDoublesTurns` | runtime/runtime.go:1294-1306 | from every serialized open session, such an exit and one more turn put two submissions at the provider |
| `Provider.CallReservesWhenIdle` | runtime/runtime.go:361-382 | a caller's step reserves the provider only in an idle open session, and otherwise leaves the turn flags alone unless it closes |
| `Provider.TurnStartKeepsSerial` | runtime/runtime.go:1275-1284 | a started turn takes the place of its submission |
| `Provider.FailureKeepsSerial` | runtime/runtime.go:1414-1467 | a failed submission frees exactly its own reservation |
| `Provider.InterruptKeepsSerial` | runtime/runtime.go:1469-1494 | the interrupt fallback frees no turn that still runs |
| `LockRegions.LateFailureLeavesIdleSessions` | runtime/runtime.go:1448-1467 | the event of a failed submission, coming late, leaves turn and status alone if and only if it finds the session idle |
| `LockRegions.HarmlessBeforeTheFailure` | runtime/runtime.go:1458-1466 | a step between the two lock regions of failSubmission is harmless if and only if it neither reserves nor starts a turn |
| `LockRegions.SplitFailureForgetsATurn` | runtime/runtime.go:1458-1466 | from every dispatching session, a Send in between loses its turn and a third turn is dispatched beside it |
| `LockRegions.LateFallbackLeavesOtherTurns` | runtime/runtime.go:1482-1493 | the fallback for turn t, coming late, leaves turn and status alone if and only if t is over and no other turn is reserved |
| `LockRegions.OneStepBeforeTheFallback` | runtime/runtime.go:1482-1493 | no single step between the check and the event makes the fallback end anything but its own turn |
| `LockRegions.SplitFallbackForgetsATurn` | runtime/runtime.go:1482-1493 | from every active session, two steps do: the turn ends, the next is sent, the late fallback frees the session and a third turn is dispatched |
| `Journal.TranslateAllConcat` | journal/events.go:33-69 | events are journaled one by one: the records of a run are those of its parts |
| `Restoring.Restore` | runtime/runtime.go:861-954 | fails exactly when neither request nor journal names backend and worktree; otherwise yields the session that the fold over the records describes |
| `RecordLaws.RestorableExactly` | runtime/runtime.go:861-889 | a journal can be restored if and only if the request or one of its creation records names backend and worktree |
| `RecordLaws.ClosedExactly` | runtime/runtime.go:902-905 | for every journal, the restored session is closed if and only if a close record stands behind the identity in force, with no later creation |
| `RecordLaws.TurnExactly` | runtime/runtime.go:906-950 | for every journal, the restored session is in a turn if and only if a start record stands behind the identity in force with nothing behind it that ends that turn or starts another, and it is that turn |
| `RecordLaws.RestoredIdentity` | runtime/runtime.go:861-889 | the restored backend is that of the last creation, or the request's; the ID is the request's |
| `Closing.ClosingIsRemembered` | runtime/runtime.go:718-729 | after any run with any adapter, over any number of hosts, a restore finds the session closed if and only if it had been closed |
| `Closing.StepCloses` | runtime/runtime.go:719-725 | Close is the only step that closes a session |
| `Closing.MoveRecordNames` | runtime/runtime.go:727-729 | a close is journaled exactly by the Close of an open session, and no run journals a second creation |
| `Restoring.ApplyRecord` | runtime/runtime.go:902-950 | what each kind of record does to a session that is known; no discarded transition error is ever an error |
| `Restoring.ReconcileRecoveredTurn` | runtime/runtime.go:976-1022 | a session left in a turn gets a cancellation for its pending answer and a failure for its turn, in that order; any other is left alone |
| `Restoring.RebuiltIsPlausible` | runtime/runtime.go:870-951 | whatever the journal, the rebuilt session is active iff it has a turn ID, and no turn status is without a turn |
| `Restoring.RecoveryIsTotal` | runtime/runtime.go:850-851 | whatever the journal, recovery ends without a turn, in status active, or closed iff the journal says closed |
| `Restoring.RecoveryIsIdempotent` | runtime/runtime.go:962-1022 | the journal extended by the recovery's records describes exactly the recovered session, and restoring again emits nothing |
| `Restoring.RecoveryOfInteraction` | runtime/runtime.go:992-1020 | the records of a cancelled interaction and its failed turn, folded, give the recovered session |
| `Restoring.RecoveryMayStop` | runtime/runtime.go:992-1020 | a recovery that stopped behind its first record is completed by the next one, with the same result |
| `Refines.RestoreRefinesExactly` | runtime/runtime.go:870-951 | with any adapter, folding the journal gives the live active flag, turn ID and pending interaction, and agrees on being in a turn, at every point of a run, if and only if every move is traced |
| `Refines.PlayAgrees` | runtime/runtime.go:870-951 | the same from any session that agrees with its journal |
| `Refines.ConformingRunsAreTraced` | host/types.go:241-245 | well-formed events under the adapter contract, without exits during submissions, are always traced |
| `Hosts.RestoreRefinesLive` | runtime/runtime.go:852-966 | the agreement holds over any number of hosts that stop anywhere, restore, and go on with the same journal |
| `Hosts.LivesAgree` | runtime/runtime.go:852-966 | each restored session agrees with its extended journal and so do the runs behind it |
| `Hosts.HostedAgrees` | runtime/runtime.go:962-1022 | a restored session agrees with the journal that its own recovery extended |
| `Misread.RefinementCanFail` | runtime/runtime.go:1448-1467 | a run under the adapter contract, from the creation of a session, that is not traced: the live session is idle and a restore finds a turn |
| `Misread.LateFailureIsMisread` | runtime/runtime.go:1226-1232 | so it is from every idle session whose provider has had a turn: a late failure is journaled under a stale turn ID |
| `Hosts.RestartClosesTheOrphanedTurn` | README.md:331-333 | a host that stops anywhere in such a history and restores finds an idle session, and reports exactly the turn and the question that were open, if any |
| `Refines.DeliveryAgrees` | runtime/runtime.go:1274-1308 | delivering an event keeps live session and journal in agreement if and only if the two read it alike |
| `Refines.EndAgrees` | runtime/runtime.go:938-949 | a terminal record ends the rebuilt turn exactly when its event ended the live one |
| `Refines.ResolutionAgrees` | runtime/runtime.go:927-937 | an answer keeps them in agreement if and only if no question is pending or it names one |
| `Refines.PermissionAgrees` | journal/events.go:86-87 | a permission event never moves the live session; its interaction is pending after a restore, so they part unless it is the pending one |
| `Refines.FailureAgrees` | runtime/runtime.go:1448-1467 | a failed submission keeps them in agreement if and only if no turn is active or the provider's last turn ID is empty or the active one |
| `Refines.TranslatedFields` | journal/events.go:71-129 | which record kinds an event becomes: the turn ID, interaction and response survive, and the kinds that move a session correspond one to one |
| `Refines.MoveAgrees` | runtime/runtime.go:1264-1308 | every move, with any adapter, keeps live session and journal in agreement if and only if it is traced |
| `Refines.MoveAppends` | runtime/runtime.go:1333-1340 | every move appends at most one record and changes no earlier one |
| `Stored.RunSurvivesOnDisk` | runtime/runtime.go:852-966 | when the store acknowledged every record of a history, restarts of store and host in between, the session restored from the file's bytes agrees with the live one |
| `OnDisk.HistoriesSurviveOnDisk` | runtime/runtime.go:852-966 | on a disk that works every record of a history is acknowledged, and what is restored from the file agrees with the live session |
| `Stored.JournalIsReadBack` | journal/store.go:146-277 | a journal that was acknowledged in full restores from the file as it would from memory |
| `Stored.EnvelopesKeepKeys` | journal/store.go:147-175 | the envelope the store fills in does not change what a record is compared by in a replay |
| `Stored.EnvelopesDoNotMatter` | runtime/runtime.go:870-951 | restoring reads only event, turn and data of a record |
| `Stored.LandedIsAsked` | journal/store.go:146-255 | without a reducer the records in the file are those that were asked for, in order, apart from their envelopes |
| `Coalesce.DeltaCoalescer.HandleEvent` | runtime/coalesce.go:35-83 | the whole new state and what is emitted, for deltas that open or continue a stream, for final snapshots and for all other events; text is never held back without a timer |
| `Coalesce.DeltaCoalescer.OpenLocked` | runtime/coalesce.go:44-59 | the first delta of a stream: what the last stream owes goes first, the new text at once, and nothing is held back |
| `Coalesce.DeltaCoalescer.CloseCoalescer` | runtime/coalesce.go:85-99 | closing emits the text still owed, once |
| `Coalesce.DeltaCoalescer.TimerCallback` | runtime/coalesce.go:105-116 | a timer emits the text still owed, and nothing once closed |
| `Coalesce.DeltaCoalescer.ScheduleLocked` | runtime/coalesce.go:101-104 | a timer is armed |
| `Coalesce.DeltaCoalescer.FlushLocked` | runtime/coalesce.go:119-127 | the pending text is emitted iff it has grown since the last snapshot |
| `Coalesce.DeltaCoalescer.ClearLocked` | runtime/coalesce.go:129-138 | the stream is forgotten and the timer stopped |
| `Coalesce.SourceIDsAreFresh` | runtime/coalesce.go:165-170 | stream source IDs with different numbers differ, whatever session and turn are called |
| `Schedule.TimingDoesNotMatter` | runtime/coalesce.go:35-138 | for every interleaving of events and timer fires up to a close, collapsing superseded snapshots gives the timer-free reference: one stream for each maximal run of deltas, with all its text |
| `Schedule.SettlesToReference` | runtime/coalesce.go:35-138 | the same from any state of the coalescer, in the middle of a stream |
| `Schedule.TimerBringsReadersUpToDate` | runtime/coalesce.go:101-116 | after any run, a timer fire gives the readers all that the events so far mean, and a second one in a row emits nothing |
| `Schedule.UpToDate` | runtime/coalesce.go:119-127 | whenever nothing is held back, readers have all that the events so far mean |
| `Schedule.HeldBackOnlyInStreams` | runtime/coalesce.go:60-64 | only a delta that continues its stream leaves text held back |
| `Schedule.OthersAreShownAtOnce` | runtime/coalesce.go:44-80 | after any other event, the readers are up to date without a timer |
| `Schedule.ClosedIsSilent` | runtime/coalesce.go:38-41 | a closed coalescer emits nothing, whatever timer or event still comes |
| `Streams.StreamsOnlyGrow` | runtime/coalesce.go:11-13 | in every run the emissions of a stream are contiguous, share source ID and sequence number, each streaming snapshot is a proper prefix of the next, and the final one is never shorter |
| `Streams.FinalOfStream` | runtime/coalesce.go:66-71 | a final snapshot keeps the stream's source ID and number and the longer of the two texts |
| `Streams.PassedAsTheyCame` | runtime/coalesce.go:74-79 | what passes through is an event of the input, unchanged, and never a delta of assistant text |
| `Streams.SnapshotsAreOfDeltas` | runtime/coalesce.go:50-55 | every streaming snapshot shows a delta that was handled: its session, turn, role and provider ID, marked as streaming |
| `Streams.StreamsCarryTheirID` | runtime/coalesce.go:49-51 | every snapshot carries the numbered source ID of its stream |
| `Streams.SourceIDsTellStreamsApart` | runtime/coalesce.go:165-170 | two snapshots of a run have one source ID iff they are of one stream |
| `Streams.ReadersSeeOneHistory` | runtime/coalesce.go:11-13 | readers that replace snapshots by source ID see the same history for every timer schedule |
| `StreamIndex.IndexIgnoresTiming` | journal/replay.go:102-120 | the replay index over the journal of any timer schedule equals the one over the reference |
| `StreamIndex.OneKeyPerStream` | README.md:326 | under the sources of the streams that index holds exactly one key for every message stream with readable text, in order, and its content is the trimmed last text |
| `StreamIndex.SnapshotGivesWay` | journal/replay.go:107-113 | journaling a snapshot and then the next one of its stream indexes as journaling the second alone |
| `StreamIndex.AdjacentKeysMerge` | journal/replay.go:107-113 | adjacent keys of one source and stream are one key |
| `StreamIndex.KeyOfMessage` | journal/replay.go:136-161 | an assistant message is compared by its trimmed text, provider ID and scope |
| `StreamIndex.StreamsAreIndexed` | journal/replay.go:102-120 | whatever passes through in between, noting the emissions adds exactly the keys of the streams under their sources |
| `StreamIndex.ReferenceSourcesAreDistinct` | runtime/coalesce.go:165-170 | trimming does not make the source IDs of two streams meet |
| `Replay.SameStreamIsNotTransitive` | journal/replay.go:122-129 | the stream relation is reflexive and symmetric; wildcard scopes make it fail to be transitive |
| `Replay.KeyFor` | journal/replay.go:136-161 | a record has a key only if it can be compared, by provider ID or content |
| `Names.MessagesAreTraced` | journal/events.go:77-85 | messages are journaled by role, and compared in a replay by their trimmed text |
| `Names.TurnsAreTraced` | journal/events.go:97-104 | the record name of each event of a turn's life, which is compared by the turn |
| `Names.ContentsAreTraced` | journal/replay.go:146-154 | plans are compared by their text, to-do lists, file changes and permissions by what they list |
| `Names.InteractionsAreTraced` | journal/events.go:86-94 | a request for permission is journaled as one; other questions, and answers, are never compared |
| `Names.OthersAreTraced` | journal/events.go:105-128 | reports on the agent are journaled and never compared, live-only events are not journaled, dotted names stay |
| `Replay.HitExactly` | journal/replay.go:50-68 | a key is found if and only if one ahead has the same event, compatible scopes, and the same provider ID or content; what is found is the first with its provider ID, or, when none ahead has that, the first with its content |
| `Replay.EndedTurnExactly` | journal/replay.go:72-86 | a key is of an ended turn if and only if its turn is recorded as ended in compatible scopes |
| `Replay.StepExactly` | runtime/runtime.go:1314-1318 | each replayed key is matched, dropped with its ended turn, or new, decided by the fields alone |
| `Recording.RecordingExactly` | journal/replay.go:102-120 | a recorded key is the last one, behind the others or in place of an earlier snapshot of its source; which of them end a turn |
| `Recording.EndedTurnsAreJournaled` | journal/replay.go:114-119 | a replayed key is of an ended turn if and only if the journal has a terminal record of that turn that was not merged into the one before it |
| `Recording.IndexedEndedTurns` | README.md:318-319 | and so it is for the matcher of a new host |
| `Replay.ReplayMatcher.constructor` | journal/replay.go:33-40 | the matcher indexes the whole journal and starts at its beginning |
| `Replay.ReplayMatcher.Match` | journal/replay.go:42-69 | records without a key never match; others match where the specification finds them |
| `Replay.ReplayMatcher.MatchComparable` | journal/replay.go:50-68 | the first key behind the cursor with the provider ID, else the first with the content; a hit moves the cursor behind it and a miss changes nothing |
| `Replay.ReplayMatcher.MatchesCompletedTurn` | journal/replay.go:72-86 | true iff a comparable record belongs to a turn with a recorded terminal event |
| `Replay.ReplayMatcher.Reset` | journal/replay.go:88-94 | back to the beginning, with everything recorded so far in reach |
| `Replay.ReplayMatcher.Record` | journal/replay.go:96-120 | a comparable record is indexed behind the others, or in place of the last one when it continues its source |
| `Replay.ReplayMatcher.Suppress` | runtime/runtime.go:1309-1322 | a replayed event is kept back iff it is matched, or of a completed turn, or thinking or tool activity; what is new is recorded |
| `Resume.StepKeeps` | README.md:325 | a miss leaves cursor and limit alone, what was persisted stays, and completed turns stay completed |
| `Resume.MatchingIsAnOrderedInjection` | journal/replay.go:42-69 | within a pass the matched positions strictly increase, so no persisted key suppresses two events, and keys recorded in the pass are out of reach |
| `Resume.CompletedTurnsStay` | journal/replay.go:71-86 | a completed turn stays completed over replays, recordings and rewinds |
| `Resume.GreedyMatchingIsComplete` | journal/replay.go:50-68 | a pass matches in full if and only if the replayed keys can be placed at increasing positions ahead of the cursor, each with a persisted key of its provider ID or, when none is ahead, of its content |
| `Resume.EmbeddedKeysMatch` | journal/replay.go:50-68 | and each key is matched never beyond its position |
| `Resume.StreamsShareOneCursor` | journal/replay.go:42-69 | any two persisted keys of different streams, replayed in the other order: the second one is new |
| `Resume.SubsequencesReplay` | journal/replay.go:42-69 | after a rewind any order-preserving subsequence of the persisted keys matches in full |
| `Resume.SuffixesReplay` | README.md:323 | a replay may begin at any persisted suffix |
| `Resume.ContentEmbeddingIsNotEnough` | journal/replay.go:50-58 | keys found in order by content alone can still be missed, because provider IDs are preferred |
| `Resume.MatchesUseUpKeys` | journal/replay.go:55 | every match uses up a persisted key |
| `Resume.ResumeConverges` | journal/replay.go:88-120 | after a pass without source merging, dropped turns or shared provider IDs, the same replay matches in full if and only if no match came behind a new event |
| `Resume.SecondResumeForwardsNothing` | README.md:313-317 | and then the second resume of the same host forwards and records nothing |
| `NextHost.NewHostRewinds` | runtime/runtime.go:465 | the matcher that a new host builds over the extended journal is the last host's, rewound |
| `NextHost.ForwardedKeysAreNew` | runtime/runtime.go:1314-1318 | what a replay forwards are the events of its new keys, and those that cannot be compared |
| `NextHost.NextHostConverges` | README.md:313-317 | a new host that gets the same replay matches every comparable event if and only if the new events of the first resume all came last |
| `NextHost.NextHostForwardsNothing` | README.md:313-317 | and then it forwards nothing that can be compared: no event is journaled twice |
| `JournalFile.RepairIsExact` | journal/store.go:391-425 | repair keeps the longest beginning that is empty or ends in a newline, and repeating it changes nothing |
| `JournalFile.RepairTornTail` | journal/store.go:391-425 | the backward scan by chunks truncates to exactly that, for every file and every buffer size |
| `JournalFile.NewlineInChunk` | journal/store.go:411-418 | the last newline of a chunk behind which there is none is the last of the file |
| `JournalFile.RepairIsInvisible` | journal/store.go:456-499 | reading a repaired file gives what reading the torn one gave, errors included |
| `JournalFile.RepairKeepsLines` | journal/store.go:456-461 | repair keeps every complete line |
| `JournalFile.ReadJournal` | journal/store.go:442-506 | one pass with a ring buffer yields the last selected records of a full read in order, or the first fault with its line |
| `JournalFile.DecodeLine` | journal/store.go:462-481 | the checks of one line, in the order of the source |
| `JournalFile.Select` | journal/store.go:484-491 | after each record the ring holds the last selected ones |
| `JournalFile.Push` | journal/store.go:485-490 | a full ring overwrites its oldest record, and one that is not full grows |
| `JournalFile.SoundLinesAreReadable` | journal/store.go:462-483 | a file is readable iff every complete line decodes, with the right schema and session and in increasing sequence, and then the records are what the lines decode to |
| `JournalFile.Scan` | journal/store.go:456-499 | what is read without a fault has one record for each line, in strictly increasing sequence |
| `JournalFile.WindowsJoin` | journal/store.go:257-258 | adjacent cursor windows of increasing records join without loss or repetition |
| `JournalFile.ReadsJoin` | journal/store.go:257-277 | for every file, Read(a, b) followed by Read(b, c) is Read(a, c), faults included |
| `Cursors.ReadsAreSlices` | README.md:307-310 | over any run of a store, Read returns the slice of the landed records between its cursors, zero leaving a side open, and Tail the last n |
| `Cursors.WindowMembers` | journal/store.go:484 | a read returns exactly the records behind the exclusive cursor and up to the inclusive one |
| `Cursors.WindowInOrder` | journal/store.go:479-489 | and in the order of the file |
| `Durable.JournalStore.ReadFile` | journal/store.go:442-447 | a file that was never created is an error; otherwise it is read |
| `Durable.JournalStore.WriterLocked` | journal/store.go:348-389 | the cached writer, or one over the created and repaired file whose sequence and reducer state come from its records; every failure leaves no writer |
| `Durable.JournalStore.Append` | journal/store.go:146-255 | the new file, the new writer and the result of an append, for each way it can fail |
| `Progress.AppendSucceedsExactly` | journal/store.go:146-254 | over any journal, an append is acknowledged if and only if the identity, schema and version are right, the disk opens, writes and syncs, the reducer accepts and keeps the identity, and the record can be encoded; and what is acknowledged is the completed, normalized record |
| `Progress.BadRecordsTouchNothing` | journal/store.go:147-163 | what the caller got wrong is refused, in this order, before the file is touched |
| `Progress.UnreadableFilesRefuse` | journal/store.go:367-371 | over an unreadable file the fault is reported, and only the torn tail is repaired |
| `Progress.DraftsAreAppended` | journal/store.go:146-175 | the runtime's drafts, without a reducer, are appended exactly when disk and codec do their part, with their content unchanged |
| `Progress.WorkingStoresAcknowledge` | journal/store.go:144-145 | on a disk that works every record the caller gets right is acknowledged, over any restarts |
| `Durable.JournalStore.Read` | journal/store.go:263-277 | cursors in the wrong order and a session without a file are refused; otherwise the records of the window |
| `Durable.JournalStore.Tail` | journal/store.go:284-290 | a limit that is not positive and a session without a file are refused; otherwise the last records of a full read, in order |
| `Durable.JournalStore.LastSequence` | journal/store.go:292-316 | the open writer's sequence, or that of the last record in the file, or 0 for a file without records; without a file an error |
| `Durable.JournalStore.Close` | journal/store.go:334-346 | writers are forgotten and the file stays |
| `Crashes.AcknowledgedRecordsSurvive` | journal/store.go:144-255 | over any appends, torn writes, failed syncs and restarts, the readable records are exactly those whose whole line was written, once each and in order, numbered 1 to n, with every acknowledged one among them |
| `Crashes.JournalHolds` | journal/store.go:144-255 | after any run the file holds exactly the landed records, and an open writer's cache agrees with it |
| `Crashes.AppendHolds` | journal/store.go:184-245 | one append adds the record of its whole line or nothing, and acknowledges no other |
| `Crashes.EnvelopesAreKept` | journal/store.go:187-218 | whatever the reducer returns, an acknowledged record has the caller's identifiers and time, or the defaults |
| `Crashes.WholeLineLands` | journal/store.go:221-231 | one whole line behind complete lines is one more record |
| `Crashes.TornLineIsInvisible` | journal/store.go:459-461 | any beginning of a line changes nothing that can be read |
| `Crashes.OpeningHolds` | journal/store.go:363-388 | opening a writer repairs the file, keeps its records, and caches their last sequence and state |
| `Crashes.WriterCacheAgrees` | journal/store.go:26-30 | after any run an open writer has the last sequence in the file and the state of the reducer replayed over it, and a reopened store finds the same writer |
| `Crashes.LastSequenceAgrees` | journal/store.go:301-315 | LastSequence is the same with and without an open writer, and fails only when no file was ever created |
| `Calls.AnswersReachTheirCall` | transport/process.go:182-226 | in every interleaving a new ID is unused, a channel gets at most one message so that no send blocks, a call that has returned leaves the table, and it returns an answer only if the peer sent it under the call's ID |
| `Calls.ResponsesAreDelivered` | transport/process.go:404-413 | in every interleaving, a response read under the ID of a pending call reaches that call: it is there or about to be sent, a waiting call can receive this body, and returns no other |
| `Calls.StrayResponsesAreDropped` | transport/process.go:405-407 | a response under any other ID changes nothing |
| `Calls.EchoedIDsNameTheCall` | transport/process.go:308-321 | a call's ID echoed as text or as a number names the call |
| `Calls.CloseWakesEveryCall` | transport/process.go:483-500 | after closing, a waiting call can return, its reply is there or about to be sent, and only calls that have yet to see the closed process are in the table |
| `Calls.ClosedCallsReturn` | transport/process.go:198-225 | no call waits forever once the process is done: in every interleaving it has at most two steps of its own left, can always take one until it has returned, and has returned when they are taken |
| `Calls.NewIDIsUnused` | transport/process.go:183 | the counter never hands out an ID twice |
| `Calls.StepKeepsInv` | transport/process.go:182-226 | every step of a call, the read loop or a close keeps the table's invariant |
| `Calls.PendingCallsHaveChannels` | transport/process.go:188-191 | every pending call has its channel, so that taking it and telling it of the end find one |
| `Calls.Process.NextID` | transport/process.go:183 | the next decimal ID |
| `Calls.Process.RegisterCall` | transport/process.go:188-191 | the call is pending with an empty channel |
| `Calls.Process.RemovePending` | transport/process.go:475-481 | whoever finds a pending call takes it, and no one else finds it |
| `Calls.Process.RouteResponse` | transport/process.go:404-413 | a response is sent iff its ID is pending, to that ID's channel alone |
| `Calls.Process.ClosePending` | transport/process.go:483-500 | the process is marked done and every pending channel receives its end exactly once |
| `Text.NumberedIDsAreInjective` | runtime/runtime.go:368 | IDs that end in a colon and a number differ when the numbers do, whatever stands before |
| `Text.TrimKeepsNumber` | journal/replay.go:141-143 | trimming keeps the number at the end of an ID |

## Left out

Operations and data:

- Configuration, model and permission catalogs, cloning helpers and their merging: easy members.
- `r.sessions`, `Forget`, `Shutdown`, `ReconcileTurn` and operations over several sessions; one session is modelled, and an unknown session is not.
- `emitQueue` and its `queue_updated` events, which change no state and are not journaled.
- `Seq` and `SourceEventID` numbering in `deliver`: events carry them as given.
- Queue entries are not journaled: a restored session has an empty queue, and numbers its entries from 1 again.
- `BackendSession` in `Restore`: a restored session starts with an empty provider turn ID, which recovery never reads since it names the turn itself.
- The message texts and data maps of the runtime's own events; data maps that carry the keys `message`, `interaction`, `interaction_response`, `agent`, `backend` or `worktree`.
- Type strings that contain a dot and equal a core record name are modelled in journal translation, and excluded from runs with a restore (`Refines.Ordinary`).
- `session.started` is journaled when `Start` is called; the source journals it when the adapter has returned. A restore reads nothing modelled from it.
- `session.Failed` is in the status table; no modelled operation enters it.
- JSON encoding: an abstract codec with a round-trip law. Event names are values, so their trimming is not modelled.
- Journal listeners, wall-clock time, file modes, and a `Sync` that fails before a read.
- Loss of a line whose write succeeded and whose sync failed, in a later power failure: such a line stays in the model's file.
- Several sessions in one store and file-name sanitizing; the check for a colliding file name is modelled.
- Wrap-around of 64-bit sequence numbers and call IDs, which are unbounded here.
- Inbound requests, notifications and cancellation messages of the transport; process spawning, pipes and grace periods.
- `acp`, `adapters`, `client`, `worktree` and most of `engine.go`: plumbing around the modelled core. The adapter is `Provider.Contract`.
- A failing `Start`, a failing adapter close, a `Restart` that races with `Send`, and the effect of suppressed replays on the live flags.
- Case folding beyond the letters that can become ASCII, which is all that role names are compared with.

Weaker statements:

- Managed.ManagedSession.Send: the submission itself and its result are steps of `Provider`, because they happen outside the lock.
- Managed.ManagedSession.Close: the coalescer and the adapter are closed before the lock is taken; their failure is not modelled.
- Coalesce.DeltaCoalescer.TimerCallback: the timer may call at any time, even when none is armed, because a stopped timer's callback may already be waiting for the lock; the interval is not modelled.
- Schedule.TimingDoesNotMatter: does not speak of the `Time` field, which depends on the timer.
- Resume.ResumeConverges: both directions need a first pass as `PlainPass` describes it; passes that merge sources are covered by `StepKeeps` and `MatchingIsAnOrderedInjection` only.
- StreamIndex.OneKeyPerStream: events that pass through are asked to carry no stream's source ID, which a caller could give them.
- Stored.RunSurvivesOnDisk: for stores without a reducer, since a reducer may rewrite the data that `Restore` reads.
- OnDisk.HistoriesSurviveOnDisk: for a codec that encodes every record and events that name no other session.
- Calls.ClosedCallsReturn: bounds a call's own steps, since the scheduler is not modelled; a write to a process that is done returns.
- NextHost.NewHostRewinds: for a journal that the first host's replay extended; live events journaled behind it are not part of the statement.
- Calls.Process.RouteResponse: takes and sends in one call; the step system of the same module interleaves other goroutines between the two.
