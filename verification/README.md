# Verified models of the agent runtime

Dafny 4.11 models of the parts of the agent runtime that keep state or transform data, with
proofs of what they promise. `dafny verify dfyconfig.toml` checks everything.

Each file is one component:

- **Agent bus.** `SpawnGuard.dfy` is the token and slot guard. `SessionBus.dfy` is the job and
  session protocol as a transition system, `SessionSolo.dfy` the exact conditions for exclusion
  and for jobs without a task or a queue, `SessionLine.dfy` the exact condition for start order,
  `SessionOrder.dfy` the runs that meet and that break them, `SessionOutcome.dfy` how jobs are
  admitted and end and in which order their results leave, `AgentBus.dfy` the mutable bus whose
  methods are proved to take exactly those steps. `AgentComm.dfy` is cursored message delivery,
  `ResultDelivery.dfy` the mailbox and message-channel hand-out of results, `ResultRecovery.dfy`
  which of them recovery keeps and which it loses, `SessionHistory.dfy` the message log with its
  task boundaries and the trimmer, `SessionLog.dfy` what that log holds of each task.
- **Provider failover.** `FallbackStream.dfy` is the commit protocol over streams,
  `FallbackCursor.dfy` the recovery cursors of nested chains.
- **Wire translation.** `ResponsesReplay.dfy`, `ResponsesText.dfy` and `ToolCallStream.dfy` for
  the Responses API, `AnthropicBlocks.dfy`, `AnthropicReplay.dfy`, `AnthropicStream.dfy` and
  `AnthropicCache.dfy` for the Messages API, `SseScanner.dfy` for the incremental sentinel scan.
- **Bounded previews.** `SpillPreview.dfy`.
- **Smaller cores.** `ContextJournal.dfy`, `Lease.dfy`, `PngContainer.dfy`.

## How the bus is modelled

A step of the bus is the code between two suspension points. A job's finalisation is three
steps, because other coroutines run in between: `Publish` (the status is written and the
result posted), `Finalize` (the guard is released and the session's current job cleared) and
`Drain` (the next queued task is dispatched). A reconciliation also owes a drain. From the first
of these steps to the last the session is in its finalisation window. An abort that reaches a
job while it waits at the concurrency gate is a step of its own (`CancelTask`, then
`MarkAborted` or `GiveUp`), since it skips the job's `finally`. Event emission, clocks and the
agent loop are parameters: how a dispatch goes (`DispatchOutcome`), how a job ends
(`Publish(j, result)`), what a store returns.

`Rule` says which runs a theorem speaks of: `AnyStep` is every interleaving, `Quiet` those
without a submit inside its session's window, `Atomic` those in which an open window is closed
before anything else runs, `Fifo` quiet runs with no failing dispatch and no session task
cancelled at the gate.

## What turned out not to hold

Each of these has a lemma for the failing family and, beside it, the exact condition or the
theorem that holds without it.

- A session can get two live tasks. Over every interleaving the one cause is a drain over a
  queue into a busy session: `_drain_session_queue` has no busy test (`StepSoloIff`,
  `SoloThroughoutIff`, `TwoTasksNeedBusyDrain`, `ExclusionExactly`). With failed task creations
  too, two tasks appear exactly when one is started where one is live (`StepTwoTasksIff`,
  `NeverTwoTasksIff`). Callers get there with a submit
  in the finalisation window of a session with a queue, before the job has left its `finally`
  (`PublishedSubmitBreaksExclusion`) and after (`WindowSubmitBreaksExclusion`), and with two
  submits when nothing is queued (`TwoWindowSubmitsBreakExclusion`); `RaceIsReachable` starts
  from an empty bus. Without a submit in a window it never happens (`QuietNeverDrainsBusy`,
  `SerialExecution`).
- A task creation that fails in a drain leaves its job submitted, so two jobs of one session
  can both be submitted though only one has a task (`FailedCreationLeavesTwo`,
  `FailedCreationIsReachable`). Every live job has a task if and only if no drain over a queue
  fails that way; a submit that does is harmless (`StepNoZombiesIff`, `NoZombiesThroughoutIff`).
- A job can start ahead of older ones that are parked. As long as no drain runs into a busy
  session, the one cause is an accepted submit that starts while its session has a queue: the
  submit looks at the busy job and not at the queue (`StepLinedIff`, `LinedThroughoutIff`,
  `OrderExactly`). Every such submit overtakes (`SubmitOvertakes`); a queue is abandoned to it by
  an abort at the concurrency gate (`GateAbortOvertakes`, `GateAbortIsReachable`) and by a drain
  whose dispatch fails (`FailedDispatchOvertakes`). Without either, no queue is abandoned and
  jobs start in submission order (`FifoNeverStartsPastQueue`, `StartsInSubmissionOrder`).
- A failed trim in a drain leaves its job queued in no queue (`FailedTrimStrands`). Every queued
  job is in its session's queue if and only if that never happens (`StepStrandedIff`,
  `NoneStrandedThroughoutIff`).
- With a history directory set, the eager trim computes its lists, awaits the offload of what
  they drop, and only then assigns them. A task opened in that gap loses its prompt and its
  boundary: every prompt is kept if and only if none was opened (`GapTrimKeepsPromptsIff`).
- A task aborted at the concurrency gate leaves an open boundary. Every further trim then makes the
  history longer (`StrandedTrimLengthens`, `StrandedLogGrowsForever`), the very first one too
  when the log before it is already compressed (`StrandedTaskInflates`). A trim is idempotent
  exactly when no task but the newest is open (`TrimIdempotentIff`), and then it never
  lengthens the log (`TrimNeverLengthens`).
- Job ids restart with the process while durable messages survive, so two different results can
  be handed out under one id (`ReusedIdIsHandedTwice`); and one result can be, if it is published
  and sent between a waiter's look at the mailbox and its read of the messages
  (`LateReadIsHandedTwice`). Over every run from every log, each id has at most one copy in what
  was handed out, buffered or posted if and only if no job already delivered is published and no
  read with an empty buffer fetches a job that is in the mailbox (`StepOnceIff`,
  `HandedOnceIff`). With fresh ids and reads only when the mailbox is empty that is so
  (`DeliveredExactlyOnce`).
- For the same reason results get lost: recovery skips a message whose id was delivered before,
  and the cursor moves past it. Of two results that earlier processes left under one id the
  second is never handed out (`SharedIdIsLost`, `LossIsFinal`). Over every run from every sorted
  log, each result of that log that was read is kept if and only if no read with an empty buffer
  fetched one whose job was already delivered or which was not the first of its job
  (`StepKeepsIff`, `KeptExactly`); with fresh ids, if and only if no two of them share an id
  (`FreshKeptIff`). What this process posts is never lost (`OwnResultsKept`), and by id alone
  nothing is (`NothingLost`).
- The empty-stream filter is not the identity on every signalled stream: a heartbeat after a
  held-back delta overtakes it (`HeartbeatOvertakes`). It is the identity exactly when none
  comes in between (`FilterIsIdentityIff`).
- Asking a chain to advance twice without a call in between is granted twice and gives up
  nothing the second time, for every client and error (`RepeatedAdvanceStalls`), so the
  termination theorem is about alternating calls and advances.
- A call announced again after its name was forwarded gets its name twice
  (`ReopeningDoublesTheName`). The assembler holds what the stream remembers if and only if, at
  each index, the last opening follows no name, no arguments, and no id unless it has its own
  (`MirrorStepIff`, `MirrorsIff`).
- Calls of one turn that share an id collapse: the last of each id is sent
  (`SharedIdCollapses`). The channel is sent exactly once if and only if no id repeats
  (`ChannelSentExactlyOnceIff`), and no entry is lost if and only if all have an id and a name
  and no id repeats (`NoEntryLostIff`).
- A tool input given whole when its block opens never reaches the tool-call channel, so a
  streamed turn replays as the provider's own blocks if and only if every input that matters
  was streamed as JSON text (`StreamedTurnRestoresIff`).
- An entry with two attachments of equal bytes is refused by the primary key of the digest
  table (`TwinAttachmentsRefused`, `AppendAccepted`). A refused append leaves garbage exactly
  when it brought a new digest, over every run (`StepTightIff`, `RunTightIff`).
- In the preview code, the head-only fallback for a tail that starts before the head ends can
  never be taken; the model proves it away and has no such branch.
- The PNG check itself skips the eight signature bytes without looking at them; its caller
  sniffs them. `HasCompletePngContainer` therefore speaks of any eight bytes.

## Model

| member | source | states |
|---|---|---|
| SpawnGuards.InitialBalanced | agent_core/components/agent_bus/spawn_guard.py:148-176 | a new guard reserves nothing, has max(max_parallel, 1) free slots and is within budget |
| SpawnGuards.PreCheckBalanced | agent_core/components/agent_bus/spawn_guard.py:211-255 | an accepted pre-check keeps reserved tokens equal to the sum of reservations and no slot lost, if and only if it overwrites no reservation with tokens or a slot; non-negative estimates stay within budget |
| SpawnGuards.PreCheckRefusesIff | agent_core/components/agent_bus/spawn_guard.py:211-255 | on balanced books a spawn is refused for its depth if that reaches the limit, else for the budget if and only if it asks for tokens and they, with all active reservations, exceed it |
| SpawnGuards.AcquireSlotBalanced | agent_core/components/agent_bus/spawn_guard.py:257-269 | taking a slot keeps slots conserved if and only if an unslotted reservation is there to carry it |
| SpawnGuards.ReleaseBalanced | agent_core/components/agent_bus/spawn_guard.py:286-310 | release conserves tokens and slots for every id, and a second release does nothing |
| SpawnGuards.EmptyGuardIsIdle | agent_core/components/agent_bus/spawn_guard.py:286-310 | without reservations nothing is reserved and every slot is free |
| SpawnGuards.SpawnGuard.PreCheck | agent_core/components/agent_bus/spawn_guard.py:211-255 | refuses for depth first and then for tokens, each exactly when the limit says so, changing nothing; otherwise records the estimate and the reservation |
| SpawnGuards.SpawnGuard.AcquireSlot | agent_core/components/agent_bus/spawn_guard.py:257-269 | flags the reservation, if it still exists, once the semaphore grants a slot |
| SpawnGuards.SpawnGuard.Release | agent_core/components/agent_bus/spawn_guard.py:286-310 | returns tokens and, only if acquired, the slot |
| SessionBus.StepConsistent | agent_core/components/agent_bus/bus.py:901-1954 | every step of the protocol keeps the global invariant tying jobs, queues, mailboxes and the guard together |
| SessionBus.RunConsistent | agent_core/components/agent_bus/bus.py:901-1954 | the invariant holds after every run under every rule |
| SessionBus.SubmitConsistent | agent_core/components/agent_bus/bus.py:1185-1317 | a submit keeps the invariant whether it is refused, parked, dispatched or fails to dispatch |
| SessionBus.PassGateConsistent | agent_core/components/agent_bus/bus.py:1594-1599 | taking a slot at the gate keeps the invariant |
| SessionBus.PublishConsistent | agent_core/components/agent_bus/bus.py:1600-1635 | writing the status and posting the result keeps it, so a result is posted once |
| SessionBus.FinalizeConsistent | agent_core/components/agent_bus/bus.py:1636-1648 | release and clearing the current job keep it |
| SessionBus.DrainTakesHead | agent_core/components/agent_bus/bus.py:1776-1798 | no aborted job is ever parked, so a drain dispatches the head of the queue |
| SessionBus.AbortIdleConsistent | agent_core/components/agent_bus/bus.py:901-950 | aborting a parked job takes it out of its queue and returns its reservation once |
| SessionBus.PurgeIsLocal | agent_core/components/agent_bus/bus.py:1006-1029 | purging a job touches no session but its own |
| SessionBus.ReconcileConsistent | agent_core/components/agent_bus/bus.py:1800-1879 | a reconciled job had not been posted before and keeps the invariant |
| SessionBus.GuardConserved | agent_core/components/agent_bus/bus.py:1257-1346 | over every run tokens and slots are conserved and within budget, a terminal job whose task ended holds no reservation, and at quiescence everything is back |
| SessionBus.MailboxExactlyOnce | agent_core/components/agent_bus/bus.py:1942-1954 | over every run no job's result leaves a mailbox twice |
| SessionBus.PostedExactlyOnce | agent_core/components/agent_bus/bus.py:1600-1879 | over every run no job's result is posted twice, by finalisation or by reconciliation |
| SessionBus.LimitsAreConstant | agent_core/components/agent_bus/spawn_guard.py:148-176 | budget and slot count never change |
| SessionOutcome.SubmitAdmitsIff | agent_core/components/agent_bus/bus.py:1185-1317 | a session task is registered under the next id if and only if its depth and, beside all reservations, its tokens are within the limits and it is parked or dispatched; it is queued if the session is busy and submitted otherwise, with its own reservation |
| SessionOutcome.OneShotAdmitsIff | agent_core/components/agent_bus/bus.py:576-803 | the same for a job of its own, one deeper than its parent, whose task is created |
| SessionOutcome.PublishPossible | agent_core/components/agent_bus/bus.py:1604-1609 | a running job may end completed, failed or aborted, and in no other way |
| SessionOutcome.EndsAsPublished | agent_core/components/agent_bus/bus.py:1600-1635 | over every run a job has ended if and only if some step ended it, and its status is what the first such step gave it: the result it published, or aborted |
| SessionOutcome.FinalStatusStays | agent_core/components/agent_bus/bus.py:1031-1061 | no step of any run changes a completed, failed or aborted status |
| SessionOutcome.ResultsLeaveInOrder | agent_core/components/agent_bus/bus.py:1942-1954 | over every run the results taken from a session, followed by those left, are those posted to it, in order |
| SessionOutcome.DrainsBalance | agent_core/components/agent_bus/bus.py:1636-1670 | over every run each job that leaves its finally or is reconciled owes its session one drain, which is taken once or still owed |
| SessionOutcome.DrainSkipsAborted | agent_core/components/agent_bus/bus.py:1776-1798 | in any state a drain drops the aborted jobs at the head of the queue and dispatches the first other one, if there is one |
| SessionSolo.StepSoloIff | agent_core/components/agent_bus/bus.py:1776-1798 | from every consistent state in which each live task is its session's current job, a step keeps that if and only if it is no drain over a queue into a busy session (a failed trim aside) |
| SessionSolo.SoloThroughoutIff | agent_core/components/agent_bus/bus.py:1264-1317 | over every run each live task is its session's current job in every state if and only if no such drain is taken |
| SessionSolo.StepTwoTasksIff | agent_core/components/agent_bus/bus.py:1264-1798 | from every consistent state without two live tasks of one session, a step makes two if and only if it is an accepted, not parked submit or a drain over a queue that starts a task where one is live |
| SessionSolo.NeverTwoTasksIff | agent_core/components/agent_bus/bus.py:1264-1798 | over every run, failed dispatches included, no state has two live tasks of one session if and only if no step starts one where one is live |
| SessionSolo.TwoTasksNeedBusyDrain | agent_core/components/agent_bus/bus.py:1776-1798 | over every run without a failed task creation in a drain, that is if and only if no drain over a queue runs on a busy session |
| SessionSolo.StepNoZombiesIff | agent_core/components/agent_bus/bus.py:1672-1703 | a step keeps every live job with a task if and only if it is no drain over a queue that fails to create one; a failing submit is harmless |
| SessionSolo.NoZombiesThroughoutIff | agent_core/components/agent_bus/bus.py:1672-1703 | the same over every run |
| SessionSolo.StepStrandedIff | agent_core/components/agent_bus/bus.py:1319-1346 | a step keeps every queued job in its session's queue if and only if it is no drain over a queue whose trim fails |
| SessionSolo.NoneStrandedThroughoutIff | agent_core/components/agent_bus/bus.py:1319-1346 | the same over every run |
| SessionSolo.ExclusionExactly | agent_core/components/agent_bus/bus.py:1264-1798 | the run conditions together, for every run from an empty bus |
| SessionLine.StepLinedIff | agent_core/components/agent_bus/bus.py:1264-1317 | in a consistent, exclusive state whose sessions have started and will start their jobs in submission order, a step that is no drain into a busy session keeps the order if and only if it is no accepted submit that starts past a queue, whatever is aborted or fails |
| SessionLine.LinedThroughoutIff | agent_core/components/agent_bus/bus.py:1264-1317 | the same over every run that never drains into a busy session |
| SessionLine.OrderExactly | agent_core/components/agent_bus/bus.py:1264-1317 | from an empty bus |
| SessionOrder.QuietNeverDrainsBusy | agent_core/components/agent_bus/bus.py:1776-1798 | a run from an exclusive state without a submit inside a finalisation window never drains into a busy session and ends exclusive |
| SessionOrder.SerialExecution | agent_core/components/agent_bus/bus.py:1264-1317 | so on every such run at most one job of a session has a task that runs, may run or has yet to leave its finally, and at most one is submitted or running when no drain fails to create a task |
| SessionOrder.AtomicIsQuiet | agent_core/components/agent_bus/bus.py:1594-1704 | finalisation taken as one step is a special case of that condition |
| SessionOrder.WindowSubmitBreaksExclusion | agent_core/components/agent_bus/bus.py:1264-1317 | conversely, in every consistent state that owes a drain, is not busy and has a queue, one accepted submit and that drain give two live tasks |
| SessionOrder.PublishedSubmitBreaksExclusion | agent_core/components/agent_bus/bus.py:1604-1670 | the same while a published job has not left its finally: submit, the rest of finally and the drain give two live tasks |
| SessionOrder.TwoWindowSubmitsBreakExclusion | agent_core/components/agent_bus/bus.py:1264-1317 | with a drain owed and nothing queued, two accepted submits and the drain give two live tasks |
| SessionOrder.WindowSubmitExactly | agent_core/components/agent_bus/bus.py:1264-1317 | from an exclusive state that owes a drain, one accepted submit followed at once by the drain keeps exclusion if and only if nothing is queued |
| SessionOrder.PublishedSubmitExactly | agent_core/components/agent_bus/bus.py:1604-1670 | from an exclusive state with a published job, one accepted submit followed at once by the closing steps keeps exclusion if and only if nothing is queued |
| SessionOrder.FailedCreationLeavesTwo | agent_core/components/agent_bus/bus.py:1672-1703 | in every exclusive state that owes a drain over a queue, a failed task creation and the next submit, in no window, leave two submitted jobs of one session |
| SessionOrder.FailedCreationIsReachable | agent_core/components/agent_bus/bus.py:1672-1703 | such a state is reached from an empty bus |
| SessionOrder.RaceIsReachable | agent_core/components/agent_bus/bus.py:1604-1670 | from an empty bus a run reaches two live tasks of one session |
| SessionOrder.FifoNeverStartsPastQueue | agent_core/components/agent_bus/bus.py:1264-1317 | a run with no submit in a window, no failing dispatch and no session task cancelled at the gate leaves no queue behind, so it meets both exact conditions |
| SessionOrder.StartsInSubmissionOrder | agent_core/components/agent_bus/bus.py:1776-1798 | so a session's jobs pass the gate in submission order, and a queued job is in its session's queue with a drain or a task in flight to reach it |
| SessionOrder.SubmitOvertakes | agent_core/components/agent_bus/bus.py:1264-1317 | in every consistent state, an accepted submit that starts past a queue passes the gate ahead of every older parked job |
| SessionOrder.GateAbortOvertakes | agent_core/components/agent_bus/bus.py:1594-1599 | in every consistent state with the current job at the gate, a queue, a free slot and an accepted submit, the abort, the submit and its start put the new job ahead of the unchanged, older queue |
| SessionOrder.GateAbortIsReachable | agent_core/components/agent_bus/bus.py:1594-1599 | from an empty bus job 3 starts before job 2 that way |
| SessionOrder.FailedDispatchOvertakes | agent_core/components/agent_bus/bus.py:1319-1346 | in every exclusive state that owes a drain over two queued jobs, a failing dispatch lets the next job start ahead of the rest |
| SessionOrder.FailedTrimStrands | agent_core/components/agent_bus/bus.py:1319-1346 | after a failed trim the popped job stays queued and is in no queue |
| AgentBuses.AgentBus.SubmitTaskToSession | agent_core/components/agent_bus/bus.py:1185-1317 | takes the submit step, and answers with the new id, the guard's refusal or the failed dispatch |
| AgentBuses.AgentBus.DispatchSessionTask | agent_core/components/agent_bus/bus.py:1319-1704 | takes the dispatch step for each outcome, releasing the reservation on failure |
| AgentBuses.AgentBus.SubmitJob | agent_core/components/agent_bus/bus.py:576-803 | refuses beyond the tighter depth limit before an id is taken; otherwise takes the one-shot step, undoing the entry and the reservation when the task cannot be created |
| AgentBuses.AgentBus.PassGate | agent_core/components/agent_bus/bus.py:1594-1599 | takes the gate step |
| AgentBuses.AgentBus.Publish | agent_core/components/agent_bus/bus.py:1600-1635 | takes the publish step, whose result EndsAsPublished keeps as the final status |
| AgentBuses.AgentBus.Finalize | agent_core/components/agent_bus/bus.py:1636-1648 | takes the finalise step |
| AgentBuses.AgentBus.Drain | agent_core/components/agent_bus/bus.py:1776-1798 | the loop that skips aborted jobs takes the drain step |
| AgentBuses.AgentBus.PurgeQueuedJob | agent_core/components/agent_bus/bus.py:1006-1029 | the search over sessions removes the job wherever it is parked |
| AgentBuses.AgentBus.MarkJobAborted | agent_core/components/agent_bus/bus.py:1031-1061 | releases, and marks the job aborted unless it already ended |
| AgentBuses.AgentBus.AbortIdle | agent_core/components/agent_bus/bus.py:901-950 | purge and mark together are the abort step |
| AgentBuses.AgentBus.CancelQueued | agent_core/components/agent_bus/bus.py:952-1004 | after the first pass of cancelling a round none of its jobs is parked anywhere |
| AgentBuses.DrainAfterCancelSparesRound | agent_core/components/agent_bus/bus.py:952-1004 | over every run after the first pass of cancelling a round, no job of the round is parked in any queue and no step dispatches it |
| AgentBuses.AgentBus.Reconcile | agent_core/components/agent_bus/bus.py:1800-1879 | takes the reconcile step |
| AgentBuses.AgentBus.PopReady | agent_core/components/agent_bus/bus.py:1942-1954 | hands out a result that was not handed out before |
| AgentComms.AgentComm.Consume | agent_core/components/agent_bus/agent_comm.py:187-255 | a batch is accepted exactly when stamped and ascending; a refused one moves no cursor |
| AgentComms.LastOrdinal | agent_core/components/agent_bus/agent_comm.py:187-255 | tells the three outcomes of a batch apart, both directions |
| AgentComms.AgentComm.ResetCursor | agent_core/components/agent_bus/agent_comm.py:257-270 | forgets exactly the named cursor, or all of the agent and task |
| AgentComms.ReadExtendsPrefix | agent_core/components/agent_bus/agent_comm.py:187-255 | one read of a contract-keeping store is accepted and extends the read prefix by exactly its batch |
| AgentComms.BatchWithinLimit | agent_core/components/agent_bus/agent_comm.py:187-255 | such a batch is at most the limit long and addressed to the reader, of the task and kind asked for; a shorter one leaves nothing unread |
| AgentComms.EveryRunExact | agent_core/components/agent_bus/agent_comm.py:187-255 | over every interleaving of sends, reads and refused reads, what a reader got is the matching log up to its cursor |
| AgentComms.CursorsOnlyAdvance | agent_core/components/agent_bus/agent_comm.py:187-255 | cursors only advance and no other key's cursor moves |
| ResultDelivery.StepOnceIff | agent_core/components/agent_bus/bus.py:1942-2087 | while no id has two copies in what was handed out, buffered or posted, a step makes one if and only if it publishes a job already delivered or, with the buffer empty, fetches a usable message of a job in the mailbox |
| ResultDelivery.HandedOnceIff | agent_core/components/agent_bus/bus.py:1881-2087 | over every run from every log no id has two copies at the end if and only if no step was such a repeat; then no id was handed out twice |
| ResultRecovery.StepKeepsIff | agent_core/components/agent_bus/bus.py:2040-2087 | while every message of the starting log that was read is kept, a step loses one if and only if it reads, with the buffer empty, one whose job was delivered before or which is not the first of its job |
| ResultRecovery.KeptExactly | agent_core/components/agent_bus/bus.py:2002-2087 | over every run from every sorted log, each usable result of that log that its recipient's cursor has passed was handed out or is buffered if and only if no read dropped one |
| ResultRecovery.FreshKeptIff | agent_core/components/agent_bus/bus.py:2064-2087 | if this process reuses no id of that log, that is so if and only if no two of those messages share an id |
| ResultRecovery.OwnResultsKept | agent_core/components/agent_bus/bus.py:1942-1954 | over every run each job this process posted is in the mailbox or was handed out from there |
| ResultRecovery.NothingLost | agent_core/components/agent_bus/bus.py:2002-2087 | by id alone: under the id of each usable message that was passed some result was handed out or is buffered |
| ResultRecovery.SharedIdIsLost | agent_core/components/agent_bus/bus.py:2073-2074 | for every log that opens with two usable results under one id to one recipient, the first read hands out the first; the second is passed and not kept, then and after every later run |
| ResultRecovery.LossIsFinal | agent_core/components/agent_bus/bus.py:2002-2087 | a message that was passed and not kept is never handed out, whatever follows |
| ResultDelivery.DeliveredExactlyOnce | agent_core/components/agent_bus/bus.py:1881-2087 | with ids new to the log and reads only when the mailbox is empty, no id is handed out twice |
| ResultDelivery.ReusedIdIsHandedTwice | agent_core/components/agent_bus/bus.py:2002-2087 | for every log that opens with a usable result, a run hands out that message and then a new job's own result under the same id |
| ResultDelivery.LateReadIsHandedTwice | agent_core/components/agent_bus/bus.py:1942-2087 | from every state with nothing posted, buffered or unread, the run that publishes and sends a job, reads its message and then pops the mailbox hands it out twice |
| ResultDelivery.ResultHub.PopReadyResult | agent_core/components/agent_bus/bus.py:1942-1954 | takes the mailbox step |
| ResultDelivery.ResultHub.ReconcileFromMessages | agent_core/components/agent_bus/bus.py:2002-2087 | whatever the mailbox holds: hands out a buffered result, else reads every recipient, buffers whole batches and hands out the first |
| ResultDelivery.ResultHub.BufferBatch | agent_core/components/agent_bus/bus.py:2040-2087 | buffers every undelivered usable result of a batch |
| SessionHistory.FinalReportIsLast | agent_core/runtime/loop/message_trimmer.py:103-124 | the report found is the last assistant message without tool calls in range, and none is found only if there is none |
| SessionHistory.FindFinalAssistant | agent_core/runtime/loop/message_trimmer.py:103-124 | the backward loop finds that report |
| SessionHistory.TrimAndRemapBoundaries | agent_core/runtime/loop/message_trimmer.py:127-173 | the loop cuts each completed task to prompt and report and moves every boundary with it |
| SessionHistory.BoundariesAlwaysHold | agent_core/components/agent_bus/bus.py:1501-1531 | over every serial sequence of tasks, however each ends and whether or not trimmed: closed boundaries lie inside the log, hold a report after their prompt and end before the next one starts |
| SessionLog.RunTasksLog | agent_core/components/agent_bus/bus.py:1501-1531 | over every sequence of tasks without a trim the log is the old one and then each task's prompt, turns and, if none of them is a report, one stub |
| SessionLog.RunTasksHold | agent_core/components/agent_bus/bus.py:1501-1531 | over every sequence of tasks, wherever it is trimmed, the log has one span per task, closed unless the task was stranded, that opens with its prompt and whose last report is the last one of its own turns, or its stub |
| SessionLog.SessionReports | agent_core/components/agent_bus/bus.py:1738-1774 | after a trim each ended task is its prompt followed by that report |
| SessionHistory.TrimValid | agent_core/runtime/loop/message_trimmer.py:127-173 | trimming keeps those promises |
| SessionHistory.TrimIsTransparent | agent_core/components/agent_bus/bus.py:1738-1774 | compressing early changes nothing the next run is seeded with, and compressing is idempotent |
| SessionHistory.TrimNeverLengthens | agent_core/runtime/loop/message_trimmer.py:127-173 | when all tasks but the newest are closed a trim never lengthens the log |
| SessionHistory.StrandedTrimLengthens | agent_core/runtime/loop/message_trimmer.py:127-173 | with a task stranded anywhere but last, trimming a trimmed log lengthens it |
| SessionHistory.TrimIdempotentIff | agent_core/runtime/loop/message_trimmer.py:127-173 | trimming twice is trimming once if and only if all tasks but the newest are closed |
| SessionHistory.StrandedLogGrowsForever | agent_core/components/agent_bus/bus.py:1738-1774 | n further trims of a stranded history add at least n messages |
| SessionHistory.StrandedTaskInflates | agent_core/runtime/loop/message_trimmer.py:127-173 | a task stranded behind an already compressed log makes the next trim longer by every later task's piece |
| SessionHistory.StrandedHistory | agent_core/components/agent_bus/bus.py:1371-1375 | a stranded and a completed task leave such a history, and its trim is two messages longer |
| SessionHistory.SubAgentSession.Open | agent_core/components/agent_bus/bus.py:1371-1375 | the log is the old one and the prompt, with an open boundary at it |
| SessionHistory.SubAgentSession.AbsorbTurns | agent_core/components/agent_bus/bus.py:1501-1531 | the log is the old one, the turns and, exactly when nothing after the prompt is a report, the stub; the last boundary is closed at its end |
| SessionHistory.SubAgentSession.CloseBoundaryAborted | agent_core/components/agent_bus/runtime.py:126-148 | an open last boundary is closed at the end of the log, which gets the abort stub exactly when nothing after the prompt is a report; otherwise nothing changes |
| SessionHistory.GapTrimKeepsPromptsIff | agent_core/components/agent_bus/bus.py:1749-1767 | whatever tasks are opened between computing the trimmed lists and assigning them, exactly their prompts are lost; every prompt is kept if and only if there were none |
| SessionHistory.SubAgentSession.PlanTrim | agent_core/components/agent_bus/bus.py:1749-1756 | computes both lists, or nothing when no task is completed, and changes nothing |
| SessionHistory.SubAgentSession.FinishTrim | agent_core/components/agent_bus/bus.py:1758-1767 | the planned lists replace whatever the session holds by then |
| SessionHistory.SubAgentSession.Trim | agent_core/components/agent_bus/bus.py:1738-1774 | both halves with nothing in between are the eager trim and keep every boundary promise |
| FallbackStream.NonEmptyStream | agent_core/providers/fallback.py:213-238 | the loop with its pending list computes the filtered stream and its end |
| FallbackStream.FilterCommitsOrHolds | agent_core/providers/fallback.py:213-238 | a signalled stream keeps all model deltas in order and its own end; any other yields no model delta and ends in its own error or an empty-completion error; transport deltas all stay |
| FallbackStream.FilterIsIdentityIff | agent_core/providers/fallback.py:213-238 | on signalled streams the filter is the identity exactly when no transport activity follows a held-back delta before the signal |
| FallbackStream.HeartbeatOvertakes | agent_core/providers/fallback.py:222-236 | the stream on which it is not |
| FallbackStream.LLMFallbackChain.Stream | agent_core/providers/fallback.py:772-834 | the loop over entries computes the outcome and both cursors, and fails with nothing attempted when the cursor is past the entries |
| FallbackStream.OneEntryServes | agent_core/providers/fallback.py:772-834 | one entry is heard: every earlier one from the cursor on failed without model output and with an error one of its triggers, or none set, matches, and it did not or was the last; its model deltas keep body, signal and order, with its provider if it has one; transport deltas keep their places; an error seen is its own |
| FallbackStream.TriggerMatchesIff | agent_core/providers/fallback.py:162-211 | a trigger matches exactly the errors of its class, status or phrases |
| FallbackCursor.CallKeepsCursors | agent_core/providers/fallback.py:729-770 | for every nesting and failure pattern, after a call the reachable leaves are a suffix of those before, begin with the leaf that served, and no leg is attempted twice |
| FallbackCursor.CallReplies | agent_core/providers/fallback.py:729-770 | for every prepared client and failure pattern every attempt but the last failed before any output, and the reply is the last attempt's own |
| FallbackCursor.FirstToHoldServes | agent_core/providers/fallback.py:729-770 | in every chain the first leg that does not give way, or the last one, serves: those before gave way by a silent failure, or an empty completion nobody manages, that their triggers match; those after are not called |
| FallbackCursor.SharedNeverEmpty | agent_core/providers/fallback.py:742-770 | a shared chain never answers with an empty completion |
| FallbackCursor.OpenCallWalks | agent_core/providers/fallback.py:729-770 | if every trigger matches, a call attempts the reachable leaves one after the other, whatever the nesting, until one is no silent failure |
| FallbackCursor.AdvanceExactly | agent_core/providers/fallback.py:697-710 | after a call an advance is granted if and only if some chain on the serving path has a leg after its serving one, whose triggers match; then the innermost such chain moves past that leg, nothing else changes, and exactly what that leg could still reach is given up |
| FallbackCursor.AdvanceShrinks | agent_core/providers/fallback.py:697-710 | a refused advance changes nothing, a granted one after a call drops at least the serving leaf |
| FallbackCursor.EveryLeafIsReached | agent_core/providers/fallback.py:686-710 | if every trigger matches, as many rounds of call and advance as there are leaves attempt every leaf of the client, the first time in order |
| FallbackCursor.RecoveryTerminates | agent_core/providers/fallback.py:686-710 | over every alternation of calls and advances there are fewer granted advances than leaves, and all calls together attempt no more legs than there are when every advance is granted |
| FallbackCursor.CursorsNeverMoveBack | agent_core/providers/fallback.py:742-770 | over such a run no cursor anywhere in the tree moves back |
| FallbackCursor.RepeatedAdvanceStalls | agent_core/providers/fallback.py:697-710 | for every client and error, a granted advance repeated without a call is granted again and changes nothing |
| FallbackCursor.PreparedIsFresh | agent_core/providers/fallback.py:686-695 | a logical call's copy is managed at every depth, starts at the beginning and reaches every leaf |
| FallbackCursor.PreparedIsSameTree | agent_core/providers/fallback.py:686-695 | and has the same legs with the same triggers, barriers included |
| FallbackCursor.SharedStaysAtStart | agent_core/providers/fallback.py:742-791 | a shared chain keeps its start index at 0 at every depth and grants no advance |
| ResponsesReplay.ParseResponsesOutput | agent_core/providers/openai_responses.py:480-579 | the loops build the block list and the tool calls, with the flat text only when no part had any, and raise exactly for a failed response |
| ResponsesReplay.ToResponsesInput | agent_core/providers/openai_responses.py:363-444 | the loops over messages and blocks build the replayed input |
| ResponsesReplay.AppendBlocks | agent_core/providers/openai_responses.py:396-433 | the text buffer is flushed before reasoning and well-formed calls, and malformed calls are skipped without a flush |
| ResponsesReplay.AppendCalls | agent_core/providers/openai_responses.py:434-438 | the fallback appends the well-formed calls of the tool-call channel |
| ResponsesText.FlushSays | agent_core/providers/openai_responses.py:396-407 | buffered texts become one message if and only if one is not empty; each such text has its place in it, after all earlier ones and one line break each, and there is nothing else |
| ResponsesText.SpellingIsUnique | agent_core/providers/openai_responses.py:396-407 | that leaves no freedom: two messages that say one gap are equal |
| ResponsesText.ReplayOfParse | agent_core/providers/openai_responses.py:363-579 | parse then replay gives the reasoning items and well-formed calls in provider order, and between two of them what stood there, said in one message |
| ResponsesText.CallConverts | agent_core/providers/openai_responses.py:445-477 | a recorded call converts if and only if it has an id and a name; flat values come before nested ones, and missing or empty arguments become an empty object |
| ResponsesText.ParsedCalls | agent_core/providers/openai_responses.py:510-541 | the tool-call entries of a parsed turn send exactly its well-formed calls, in order |
| ResponsesText.HistoryInOrder | agent_core/providers/openai_responses.py:383-443 | every history goes back message by message: a tool result with its call id and text, any other message with its role, an assistant turn with its texts and anchors in their own order and the calls of its entries only if no block sends one |
| ResponsesReplay.ReplayKeepsProviderOrder | agent_core/providers/openai_responses.py:363-579 | so each appears exactly once in provider order, and no two messages are adjacent |
| ResponsesReplay.ReplayIsStable | agent_core/providers/openai_responses.py:363-579 | parsing a replayed turn and replaying it again changes nothing |
| ResponsesReplay.NoAnchoredCallNoEntry | agent_core/providers/openai_responses.py:445-477 | a call converts alike from its block and from its tool-call entry, so the fallback adds nothing to a parsed turn |
| ToolCallStream.StreamToolCalls.Feed | agent_core/stream_tools.py:13-24 | the loop merges each delta into its slot |
| ToolCallStream.StreamToolCalls.Complete | agent_core/stream_tools.py:26-30 | gives the named slots in index order |
| ToolCallStream.SortedIsAscending | agent_core/stream_tools.py:26-30 | the order in which slots are given is ascending |
| ToolCallStream.ForwardCalls | agent_core/providers/openai_responses.py:224-246 | the call bookkeeping of the event loop |
| ToolCallStream.UnstreamedCallDeltas | agent_core/providers/openai_responses.py:302-335 | the loop over the terminal output gives the completion deltas |
| ToolCallStream.FedAsTold | agent_core/providers/openai_responses.py:224-246 | after every prefix of a stream the assembler holds, per index, the last id that is not empty and all names and arguments in the order they came |
| ToolCallStream.MirrorStepIff | agent_core/providers/openai_responses.py:224-246 | while the assembler holds what the stream remembers, one more event keeps that if and only if it opens no call, or the slot there has no name, no arguments, and no id unless the event has one |
| ToolCallStream.MirrorsIff | agent_core/stream_tools.py:13-24 | over every stream the assembler holds what the stream remembers if and only if at each index the last opening follows no name, no arguments, and no id unless it has its own |
| ToolCallStream.OpenedOnceIsClean | agent_core/providers/openai_responses.py:224-246 | a stream that opens each call at most once, before its arguments, meets that condition |
| ToolCallStream.AssembledExactly | agent_core/providers/openai_responses.py:302-335 | under that condition streamed and completion deltas leave exactly the terminal response's calls, by call id or else id, if and only if nothing streamed contradicts it in index, id, name or argument prefix |
| ToolCallStream.StreamedCallsAreFinalCalls | agent_core/providers/openai_responses.py:302-335 | and the completed list is the named calls of the response in order |
| ToolCallStream.SilentStream | agent_core/providers/openai_responses.py:302-320 | with nothing streamed the completion deltas alone rebuild it |
| ToolCallStream.ReopeningDoublesTheName | agent_core/stream_tools.py:13-24 | after every mirrored stream, opening again a call whose name was forwarded gives it both names joined, while the stream remembers the new one |
| AnthropicBlocks.StreamBlocks | agent_core/providers/anthropic.py:326-462 | the event loop and the settling of partial JSON build the ordered block list |
| AnthropicBlocks.SlotsAreIndependent | agent_core/providers/anthropic.py:326-403 | each block is made by the events of its own index, however they are interleaved |
| AnthropicBlocks.StreamedEqualsBatch | agent_core/providers/anthropic.py:290-403 | every event sequence that spells a turn streams to the block list that reading the turn whole gives: each known block as it came, a call with an empty-valued input made the empty object |
| AnthropicReplay.ToLlmResponse | agent_core/providers/anthropic.py:1024-1079 | the loop over the content gives block list or joined text, and the tool-call entries |
| AnthropicReplay.AssistantMessage | agent_core/providers/anthropic.py:757-823 | replays the turn and drops it when there is nothing to send |
| AnthropicReplay.ReplayNative | agent_core/providers/anthropic.py:764-803 | the loop over native blocks with the shrinking dictionary of calls |
| AnthropicReplay.ReplayKeepsThinking | agent_core/providers/anthropic.py:764-791 | for every history, thinking and redacted blocks are replayed unmodified and in order |
| AnthropicReplay.ReplayKeepsText | agent_core/providers/anthropic.py:764-803 | every turn sends its texts that are not empty, in order, and no other text |
| AnthropicReplay.EntryConverts | agent_core/providers/anthropic.py:757-763 | an entry converts if and only if it has an id and a name, keeping both; its input is the object its arguments spell, or the empty object |
| AnthropicReplay.CallsSentExactlyOnce | agent_core/providers/anthropic.py:757-803 | for every native block list, each call of the dictionary by id is sent exactly once |
| AnthropicReplay.ChannelSentExactlyOnceIff | agent_core/providers/anthropic.py:757-803 | a turn sends each convertible call of its channel exactly once if and only if no two share an id |
| AnthropicReplay.NoEntryLostIff | agent_core/providers/anthropic.py:757-803 | no entry of the channel is lost if and only if all have an id and a name and no id repeats |
| AnthropicReplay.BatchReplayRestores | agent_core/providers/anthropic.py:746-823 | a thinking turn with distinct call ids replays as the provider's own sendable blocks in its own order |
| AnthropicReplay.PlainReplayRestores | agent_core/providers/anthropic.py:746-823 | a turn without thinking replays as one text, in which each of its texts has its line, if that is not empty, and then its calls |
| AnthropicReplay.StreamedReplayRestores | agent_core/providers/anthropic.py:451-475 | so does the same turn streamed under every interleaving, given the same tool-call entries |
| AnthropicReplay.SharedIdCollapses | agent_core/providers/anthropic.py:757-763 | exactly the last call of each id is kept, once |
| AnthropicStream.ChannelIsIndependent | agent_core/providers/anthropic.py:339-400 | each slot of the tool-call channel is made by the events of its own index, however they are interleaved |
| AnthropicStream.StreamedCallsOfTurn | agent_core/providers/anthropic.py:339-400 | the calls assembled from a stream that spells a turn are the named calls of the turn, in order, with their JSON text |
| AnthropicStream.StreamedTurnReplays | agent_core/providers/anthropic.py:290-475 | a streamed turn with the calls of its own events replays as the provider's blocks in order, each call with the input its JSON text spells |
| AnthropicStream.StreamedTurnRestoresIff | agent_core/providers/anthropic.py:290-475 | that is the provider's own blocks if and only if each sendable call had its input streamed as JSON text or has none |
| AnthropicCache.MergeToolResults | agent_core/providers/anthropic.py:568-598 | the loop computes the merge |
| AnthropicCache.MergesIff | agent_core/providers/anthropic.py:568-598 | a message joins the one before it if and only if both are persistent user messages of nothing but tool results, at least one; then that one ends in its blocks |
| AnthropicCache.MergeKeepsBlocks | agent_core/providers/anthropic.py:568-598 | merging keeps every block with its role and lifetime in place and leaves no mergeable neighbours |
| AnthropicCache.MergeIsIdempotent | agent_core/providers/anthropic.py:568-598 | merging twice is merging once |
| AnthropicCache.MarkExactly | agent_core/providers/anthropic.py:729-743 | marking sets one marker, on the final block of the last message before the tail, if caching is on and there is something to mark, and changes nothing else |
| AnthropicCache.Request.AddPromptCache | agent_core/providers/anthropic.py:684-743 | marks the system prompt and the final block of the last persistent message, and nothing else |
| AnthropicCache.FoldTransientTail | agent_core/providers/anthropic.py:601-628 | the loop computes the fold, or leaves the messages alone when a role is not user |
| AnthropicCache.FoldExactly | agent_core/providers/anthropic.py:601-628 | a tail is folded if and only if it and the message before it are all the user's; then that message ends in everything the tail says, in order, and the tail is gone |
| AnthropicCache.BuildMessages | agent_core/providers/anthropic.py:156-196 | merge, count the tail, mark, fold |
| AnthropicCache.CachedPrefixIsStable | agent_core/providers/anthropic.py:156-196 | for every per-call tail the request begins with the same messages and blocks up to the marker, and folding only appends after them |
| AnthropicCache.StablePrefixEndsInMarker | agent_core/providers/anthropic.py:729-743 | with caching on that prefix ends in the marker exactly when the last persistent message has something to mark |
| AnthropicCache.RequestConserves | agent_core/providers/anthropic.py:156-196 | merging, marking and folding together neither lose, repeat nor reorder a block the model reads, empty text aside |
| SseScanner.StreamActivity.ObserveBytes | agent_core/providers/_stream_activity.py:38-50 | the loop over parts takes the observe step and never holds more than 32 bytes |
| SseScanner.StreamActivity.FinishBytes | agent_core/providers/_stream_activity.py:52-57 | checks a last line without a line break |
| SseScanner.StreamActivity.CheckLine | agent_core/providers/_stream_activity.py:59-68 | sets the flag exactly for a short line that hits |
| SseScanner.StreamActivity.AppendLine | agent_core/providers/_stream_activity.py:70-78 | grows the line or gives it up beyond 32 bytes |
| SseScanner.HitsAreSentinels | agent_core/providers/_stream_activity.py:59-68 | a line hits exactly when it starts with data:, at most one space and the sentinel |
| SseScanner.VerdictIgnoresChunking | agent_core/providers/_stream_activity.py:38-78 | for every byte stream and every chunking the verdict is that some line of at most 32 bytes is a sentinel, and the line held is at most 32 bytes |
| SseScanner.VerdictFollowsStandard | agent_core/providers/_stream_activity.py:42-44 | the same verdict as with CRLF, LF and CR line breaks of section 9.2.5 of the WHATWG HTML Standard |
| SpillPreview.HeadEnd | agent_core/runtime/spill.py:59-63 | a head ends within budget and text: before the last newline of its second half, or at the budget when that has none |
| SpillPreview.TailStart | agent_core/runtime/spill.py:66-71 | a tail is within budget and starts after the first newline of its first half, or at the cut when that has none |
| SpillPreview.GroupedValue | agent_core/runtime/spill.py:55-56 | the grouped number in a marker reads back as the count |
| SpillPreview.GroupedForm | agent_core/runtime/spill.py:55-56 | it has a comma before every third digit and no leading zero |
| SpillPreview.PreviewFits | agent_core/runtime/spill.py:74-105 | a preview fits its budget and is the text if that fits, else a prefix, or a prefix and a suffix around a marker line with the exact elided count, as its shape says and exactly when mode and room allow; a cut keeps at least half of what it may |
| SpillPreview.BudgetedPreviewFits | agent_core/runtime/spill.py:149-183 | a budgeted preview is never longer than the body nor than max(cap, 500 + footer) |
| SpillPreview.BudgetedPreviewShows | agent_core/runtime/spill.py:149-183 | the result is the body, surely so if it fits beside the longest footer or in 500 characters, or the footer after a preview given exactly that room |
| SpillPreview.LongOriginalPreviewFits | agent_core/runtime/spill.py:149-183 | with a longer original given, it is at most max(cap, 500 + footer) |
| SpillPreview.SortByLength | agent_core/runtime/spill.py:331-335 | every result index once, longest result first, earlier ones first among equals |
| SpillPreview.EnforceAggregateBudget | agent_core/runtime/spill.py:316-357 | nothing grows; for positive cap and footers of at most 1,500 characters the total is at most max(cap, 2000 n); a result is cut only if every longer one was; every cut body was handed to the store first |
| ContextJournal.JournalStore.Append | agent_core/context/sqlite_store.py:82-118 | inserts the row with the next sequence and its links, or nothing when an id or a digest repeats |
| ContextJournal.JournalStore.ListEntries | agent_core/context/sqlite_store.py:133-152 | gives the selected rows in sequence order, cut to the limit |
| ContextJournal.JournalStore.DeleteScope | agent_core/context/sqlite_store.py:184-206 | deletes rows and links and gives the digests nothing refers to any more |
| ContextJournal.BlobStore.Put | agent_core/context/blob_store.py:26-53 | stores new content and leaves existing content alone |
| ContextJournal.ContextManager.Append | agent_core/context/manager.py:20-35 | puts the blobs, then inserts; a refused entry leaves its blobs behind |
| ContextJournal.ContextManager.DeleteScope | agent_core/context/manager.py:75-78 | deletes the scope, then exactly the unreferenced blobs |
| ContextJournal.EveryRunSound | agent_core/context/manager.py:20-35 | over every run every digest a row refers to is stored under its own hash, keys are unique and links match rows |
| ContextJournal.DeleteExactly | agent_core/context/sqlite_store.py:184-206 | deletion removes exactly the blobs whose last reference was in the scope, empties its history and leaves every other history as it was |
| ContextJournal.SequencesNeverReused | agent_core/context/sqlite_store.py:16-18 | over every run, deletions included, sequence numbers strictly ascend |
| ContextJournal.AppendExtendsHistory | agent_core/context/sqlite_store.py:82-118 | an accepted append extends its own history by one row and no other |
| ContextJournal.AppendIsRecorded | agent_core/context/manager.py:20-35 | an accepted append leaves one row with the next sequence and the caller's fields, whose references give each attachment's name, digest and size, and a blob of that digest under each |
| ContextJournal.PagesConcatenate | agent_core/context/sqlite_store.py:133-152 | pages of any positive size, each read from the last sequence seen, concatenate to the whole history |
| ContextJournal.PageExactly | agent_core/context/sqlite_store.py:133-152 | a page holds rows of the scope, after the sequence and of a kind asked for, in order and within the limit; any such row that is not on a page comes after a full one |
| ContextJournal.AppendAccepted | agent_core/context/sqlite_store.py:95-118 | an append is accepted if and only if the kind is not empty, the id is new and no two attachments have one digest; an empty kind and then a used id have errors of their own |
| ContextJournal.TwinAttachmentsRefused | agent_core/context/sqlite_store.py:29-34 | an append with two attachments of equal bytes anywhere in its list is refused, changes no table and leaves their blob |
| ContextJournal.StepTight | agent_core/context/manager.py:75-78 | an accepted append and a deletion leave no unreferenced blob behind |
| ContextJournal.StepTightIff | agent_core/context/manager.py:20-35 | an operation keeps the store free of garbage if and only if it is no refused append with a digest not stored before |
| ContextJournal.RunTightIff | agent_core/context/manager.py:20-35 | a run keeps it free of garbage throughout if and only if none of its refused appends brings a new digest |
| Leases.Lease.Track | agent_core/runtime/async_utils.py:84-88 | counts an operation unless the slot was already returned |
| Leases.Lease.Settle | agent_core/runtime/async_utils.py:90-94 | counts down and releases once at zero |
| Leases.ReleasedExactlyOnce | agent_core/runtime/async_utils.py:49-58 | over every interleaving, an operation abandoned more than once included, release has run once if the block has exited and every registered callback has run, and not at all otherwise |
| Leases.WaitsForEveryOperation | agent_core/runtime/async_utils.py:49-111 | from the events alone: the lease has released exactly when the block has exited and no provider operation abandoned before the release is still running |
| Leases.ReleaseIsFinal | agent_core/runtime/async_utils.py:78-111 | nothing after the release changes anything |
| PngContainer.HasCompletePngContainer | agent_core/tool_content.py:293-317 | accepts exactly eight bytes followed by a printed chunk list with a 13-byte IHDR first, an IDAT, a single final empty IEND and correct checksums |
| PngContainer.WalkData | agent_core/tool_content.py:293-317 | the loop reads in bounds, terminates and agrees with the walk |
| PngContainer.WalkAcceptsExactly | agent_core/tool_content.py:293-317 | the walk accepts exactly the printed forms of well-formed chunk lists |

## Left out

- Detaching stuck jobs in `cleanup_task` (agent_core/components/agent_bus/bus.py:2203-2313): a detached task can overwrite an aborted status later, so it is outside the run invariants.
- Event emission, hot queues, broadcast delivery, `collect`, `dispatch_parallel` and rehydration on the bus: they read the state modelled here or only report it.
- A bus without a spawn guard, token usage reported at release, and filtering by parent task: easy members beside the modelled ones.
- Job ids are numbers in submission order; result adapters that return a foreign job id are not modelled.
- A recovery read of several recipients is one step, so a result published between two of its reads is not captured.
- A message's ordinal is one field: the fallback from a stamped sequence to a decimal id is folded into it.
- `run_agent_loop` and the result converters: a run is an arbitrary outcome with arbitrary turns.
- FallbackCursor.Call: nested chains are values, not objects, so sharing of one chain object by two entries is not captured; `for_logical_call` copies every chain, so a prepared tree has none.
- `CooldownFallbackLLM`, `NonBlockingStream` and telemetry stamps: clock reads or shallow claims.
- Trigger matching looks at given class, message and status fields; lower-casing is not modelled.
- Responses usage, finish reasons, refusal metadata and reasoning summaries as flat text; the terminal `final_tool_calls` channel.
- Usage accounting, refusal details, retries with stripped thinking and the check for the terminal event in the Messages adapter; user and tool messages convert one to one and enter `AnthropicCache` already converted.
- JSON decoding, SHA-256 and CRC-32 are function parameters; `AnthropicReplay.BatchReplayRestores` needs that written inputs read back.
- SpillPreview.BudgetedPreview: the wording of the footer is a parameter, so the bounds hold for every wording; path handling and file writing of the spill store are not modelled.
- Notes projected from the journal, blob integrity checks on read, the setup lock and concurrent connections of the journal store.
- JPEG, GIF and WebP checks and sizes in agent_core/tool_content.py, and image sniffing.
- The wait with a deadline itself in agent_core/runtime/async_utils.py; only what it does with an abandoned operation is modelled.
