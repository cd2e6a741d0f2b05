# Keelmesh: a verified model

Keelmesh is a set of Go services around three stateful protocols and a message-delivery runtime. This project
models them in Dafny and proves what they promise over every run.

- **GateCore** (`gate_*.dfy`): the life of a task in the durable configuration, a Postgres repository with a
  transactional outbox. `gate_model` says what each handler writes after reading a record; `gate_machine` lets any
  number of handlers and executions interleave, with the read and the compare-and-set of each as separate steps and
  an abort possible anywhere; `gate_safety`, `gate_identity`, `gate_approval`, `gate_attempts`, `gate_budget` and
  `gate_cursor` prove properties of every schedule, and `gate_contexts` of every history of registered executions;
  `gate_effects` and `gate_origins` say, in the tasks' own fields, what each handler leaves and where what is stored
  and delivered comes from; `gate_service` is the imperative form, and `gate_refinement` shows that its methods run
  schedules of the machine.
- **Agent event log** (`task_events`, `agent_*`, `gate_projection`, `gate_sessions`, `gate_executions`, `gate_fields`,
  `end_to_end`): a dense log, the replay-to-live handoff of a subscription, Gate's projection of the log by cursor,
  what an execution stores of its stream, what starts a task again, what a pass shows of the events, and all of it
  composed from the agent's publishers to the Gate record.
- **Channel runtime** (`channel_*.dfy`): limiter, splitter, retrying worker, idempotent send as one method and as
  interleaved critical sections, bounded fan-out, once-only callbacks and all-or-nothing preparation.
- **LoopCore** (`loop_*.dfy`): runs of steps and the shape they keep.

`sequences` and `text` hold what these share. Methods state their new state by specification functions; the lemmas
prove what the source promises about those functions over whole runs. Lemmas named `...TakesEffectIff` and `...Tells`
say what such a function means in the source's own fields and constants, without it. Clocks, platforms, executors, the commits of
other processes and the places where a statement fails are parameters that take every value.

Some promises fail for some inputs; each then has such an input and the exact condition under which it holds:

- The approval gate: `IntrusionIsUnsafe`; it holds exactly while no outside projection moves a waiting task
  (`ApprovalGateHoldsIff`).
- The attempt budget: `StaleProjectionBreaksBudget` within one process, `StaleRecoveryBreaksBudget` with a second
  process starting on the same database; it holds exactly while each start can afford what stale stores have erased
  (`BudgetHoldsIff`), because starts, refusals, counter and erasures balance (`StartsAreConserved`).
- The replay-to-live handoff: `RacingPublishersLoseAnEvent` and `FullChannelLosesAnEvent`; it is exact exactly when
  every push comes in turn (`HandoffIsExactIff`).
- Events applied once and in order: `EventIsAppliedTwice`; exactly while each applied event lies beyond the furthest
  the cursor has been (`EventsAreAppliedOnceIff`).
- One pass over the agent's log: an unsupported event fails the task (`RejectionFailsTask`), and a resumed task goes on
  where the pass has ended (`ResumedTaskOutlivesPass`); `ExecutionsRefineOnePassIff` says exactly when the executions
  leave the record of the pass, and `LastLifeRefinesOnePassIff` of which part of the log they always do.
- Cancelling the execution in flight: `LateReturnHidesContext`; exactly while nothing has concerned the task since that
  execution was started (`CancelEndsIff`).
- Idempotent sends: `LateRollbackDuplicates`; a message stays the only one of its window exactly when its reservation
  stands and no other send of its key is unfinished (`NeverDuplicatedIff`). A repeat names a message that is never
  enqueued exactly when that send fails (`RepeatIsLostIff`).
- The shape of a loop run: `RepeatBreaksShape`; it holds exactly for distinct step ids and advances in turn
  (`ShapeHoldsIff`, `AdvanceKeepsShapeIff`).
- The backoff: exact up to attempt 35 and wrapped beyond (`BackoffIsExactIff`). Separate slots for separate channels:
  exactly while no id extends another's over the separator (`ChannelsCollideIff`).

Check everything with `dafny verify dfyconfig.toml`.

## Model

| member | source | states |
|---|---|---|
| `GateMachine.WriteShape` | internal/application/gate/service.go:230-356 | Every write any handler can hold, however stale its snapshot: its audit row spans exactly the state it expects and the state it stores; none expects cancelled; only a started execution expects final; only "finished" carries a final delivery; no write leads into waiting for approval |
| `GateMachine.RunAppend` | internal/application/gate/service.go:273-356 | A schedule may be cut anywhere: running the two parts in turn is running the whole |
| `GateSafety.AuditTrailIsPath` | internal/application/gate/postgres_repository.go:59-96 | In every interleaving a task's audit rows start from no state, each row's from-state is the previous row's to-state, and the last to-state is the stored state; without rows there is no task |
| `GateSafety.CommitKeepsTrail` | internal/application/gate/postgres_repository.go:67-93 | A compare-and-set whose row spans it, won or lost, keeps every task's trail a path to its stored state |
| `GateSafety.CreateKeepsTrail` | internal/application/gate/postgres_repository.go:21-49 | The creating transaction keeps every trail a path, also when the primary key refuses it |
| `GateSafety.StepTouches` | internal/application/gate/postgres_repository.go:67-80 | A step leaves a task's record, trail and deliveries alone unless a thread stores over the state the task is in |
| `GateSafety.CancelledIsAbsorbing` | internal/application/gate/service.go:324-356 | From any state of the system, once a task is cancelled no later step of any stale handler writes its record, its audit rows or its outbox rows |
| `GateSafety.FinalIsAbsorbing` | internal/application/gate/service.go:531-598 | A final task with no execution of it past "started" in flight is never written again and never gets such an execution |
| `GateSafety.LeavingFinal` | internal/application/gate/service.go:571-583 | Exactly when one step takes a task out of final: when an execution stores a failure that it computed from the final record |
| `GateSafety.DeliveriesAreConserved` | internal/application/gate/service.go:152-171 | In every interleaving, per task: final deliveries = "finished" rows = completed executions, and "started" rows = final deliveries + executions in flight + dropped executions |
| `GateSafety.StepKeepsBalance` | internal/application/gate/service.go:547-597 | Every single step, from any balanced state, keeps that account of rows, deliveries and executions |
| `GateSafety.CommitCounts` | internal/application/gate/outbox_dispatcher.go:43-80 | A transaction adds a final delivery exactly when it applies and its row says "finished" |
| `GateSafety.SettleCounts` | internal/application/gate/service.go:547-597 | A thread becomes completed exactly when its "finished" row committed, and counts as started exactly when its "started" row has |
| `GateIdentity.RunIsConsistent` | internal/application/gate/service.go:478-598 | Along every schedule all snapshots, executions, outbox rows and stored records of a task agree on its channel, target, content, metadata and policy, although every write stores a whole record |
| `GateIdentity.IdentityIsPermanent` | internal/application/gate/postgres_repository.go:67-80 | Whatever happens later, a task keeps the identity and the policy it was created with |
| `GateIdentity.DeliveriesAreAddressed` | internal/application/gate/outbox_dispatcher.go:43-80 | Every delivery ever enqueued is addressed to the channel and target of its stored task |
| `GateOrigins.TasksAreAsSent` | internal/application/gate/service.go:478-506 | Over every schedule a task is stored exactly when a dispatch was accepted for its id, and its channel, target, content, metadata, limits and approval policy are those of the first such dispatch, field by field |
| `GateOrigins.DeliveriesAreAsSent` | internal/application/gate/outbox_dispatcher.go:43-80 | Over every schedule each execution and each delivery carries the channel, target, content and metadata of the dispatch its task was accepted with |
| `GateOrigins.DeliveriesComeFromWork` | internal/application/gate/service.go:152-200 | Over every schedule each final delivery carries the result, and each progress delivery the status and content, that an execution of its task was asked to store earlier; the store that enqueued it left the very same in the record |
| `GateOrigins.StoredWorkIsDelivered` | internal/application/gate/service.go:152-200 | A held result or progress report is stored and delivered exactly when the task is still in the state it was read in; else nothing changes |
| `GateEffects.AcceptTakesEffectIff` | internal/application/gate/service.go:478-506 | Accept creates an unknown task only: every field of the new record, its audit row, and one execution unless it waits for approval |
| `GateEffects.ApproveTakesEffectIff` | internal/application/gate/service.go:299-322 | Undisturbed, an approval takes effect if and only if the task requires one and waits: granted and queued, nothing else changed, one audit row, one execution |
| `GateEffects.ResumeTakesEffectIff` | internal/application/gate/service.go:273-297 | Undisturbed, a resumption takes effect if and only if the task has failed: queued without error, nothing else changed, one audit row, one execution |
| `GateEffects.CancelTakesEffectIff` | internal/application/gate/service.go:324-356 | Undisturbed, a cancellation takes effect if and only if the task is waiting, queued or running: cancelled with the trimmed reason or the default one, nothing else changed, one audit row |
| `GateEffects.RecoverTakesEffectIff` | internal/application/gate/service.go:395-407 | Undisturbed, a recovery takes effect if and only if the task is queued or running and approved or free of approval: queued, nothing else changed, one audit row, one execution |
| `GateEffects.ProjectTakesEffectIff` | internal/application/gate/service.go:230-271 | Undisturbed, an outside event takes effect if and only if the task has not ended and the event is new and of a known state: exactly the fields it reports, and the cursor |
| `GateEffects.BeginTakesEffectIff` | internal/application/gate/service.go:531-550 | Undisturbed, an execution starts exactly a queued task: running with one more attempt, or failed with its text when that is beyond a positive MaxAttempts |
| `GateEffects.ReportTakesEffectIff` | internal/application/gate/service.go:173-200 | Undisturbed, progress takes effect exactly while the task has not ended: its two fields, one audit row, one delivery |
| `GateEffects.ApplyTakesEffectIff` | internal/application/gate/service.go:241-266 | The same as an outside event, for an event of the execution's own stream |
| `GateEffects.FailTakesEffectIff` | internal/application/gate/service.go:574-585 | Undisturbed, a failure is stored exactly unless the task is cancelled, with its error text; the execution ends |
| `GateEffects.FinishTakesEffectIff` | internal/application/gate/service.go:587-597 | Undisturbed, a result is stored and delivered exactly unless the task is cancelled; the execution is then complete |
| `GateFields.PassShowsLog` | internal/application/gate/service.go:241-264 | One pass over the agent's log from a task that has not ended, in terms of the events beyond its cursor: the state of the event that ended it or else of the last one that set a state; the content of the final one as result or the error of the failed one; status and preview of the last progress event before the end; the cursor on the last known event; nothing else changed |
| `GateFields.SessionShowsEvents` | internal/application/gate/service.go:551-585 | An execution's session, as a schedule of the machine, leaves exactly that of its events, up to the first unknown one, at which it fails the task with the rejection's text |
| `GateFields.StoredEventShows` | internal/application/gate/service.go:241-266 | In any state of any schedule, an event about to be stored was new, known and of a live snapshot, and is stored exactly when the task is still in the state read: the fields it reports over that snapshot |
| `GateApproval.ApprovalGateHoldsIff` | internal/application/gate/service.go:230-271 | A schedule keeps every unapproved task waiting or cancelled throughout if and only if no projection from outside an execution stores an event other than progress over a waiting task; ProjectTaskEvent itself does not ask for approval |
| `GateApproval.ApprovalIsSafe` | internal/infrastructure/agentclient/client.go:105-109 | While only executions project events, under every interleaving: an unapproved task is waiting or cancelled, no execution of it exists, and a grant is never undone by a stale write |
| `GateApproval.StepIsSound` | internal/application/gate/service.go:299-322 | Any step that is no such bypass keeps the approval invariant and every grant |
| `GateApproval.BypassIsUnsafe` | internal/application/gate/service.go:247-263 | A bypassing projection always leaves an unapproved task outside waiting and cancelled |
| `GateApproval.IntrusionIsUnsafe` | internal/application/gate/service.go:230-271 | The input that does it: accept a task that needs approval, then project a final event as its first one; the unapproved task is final |
| `GateApproval.WriteIsSound` | internal/application/gate/service.go:395-407 | Writes raise a grant only over waiting for approval; recovery and approval start executions only of approved tasks |
| `GateAttempts.SerialBudget` | internal/application/gate/service.go:531-550 | With every handler's read and compare-and-set taken as one step: with a positive MaxAttempts a task has at most that many "started" rows over any run of approvals, resumptions, recoveries and projections |
| `GateAttempts.BudgetHoldsWhenFresh` | internal/application/gate/service.go:531-550 | The budget also holds over every interleaving in which each successful store still finds the attempt count it read |
| `GateAttempts.StaleRecoveryBreaksBudget` | internal/application/gate/service.go:395-405 | A recovery that read the task before its first start stores after a failure and a resumption: the state matches again, the attempt count is put back, and a budget of one start is spent twice. Recovery runs at startup only, so this takes a second process on the same database |
| `GateAttempts.StaleRecoveryRewinds` | internal/application/gate/postgres_repository.go:67-80 | A recovery that read a queued record succeeds over any later queued record and restores the old one: the compare-and-set sees the state only |
| `GateBudget.StepAccounts` | internal/application/gate/service.go:531-550 | For any step from any state: the "started" row it adds and the start it refuses are exactly what it adds to the attempt counter and what its store erases from it |
| `GateBudget.StartsAreConserved` | internal/application/gate/service.go:531-550 | In every interleaving: "started" rows + refused starts = the attempt count + the attempts that stores of stale snapshots have erased from it |
| `GateBudget.BudgetHoldsIff` | internal/application/gate/service.go:539-546 | Throughout any schedule a task has at most MaxAttempts "started" rows if and only if at each start that commits, the count it read + 1 + the attempts erased so far - the starts refused so far is within MaxAttempts |
| `GateBudget.StaleProjectionRewinds` | internal/application/gate/service.go:230-271 | An outside projection that read an older attempt of a running task succeeds over the newer one and puts the older record back |
| `GateBudget.StaleProjectionBreaksBudget` | internal/application/gate/service.go:230-271 | Within one process: a slow outside projection that read the first attempt stores during the second one, and a budget of two starts is spent three times |
| `GateCursor.CursorIsConserved` | internal/application/gate/service.go:241-266 | In every interleaving: a task's cursor + what stores of stale snapshots have taken it back = what applied events have moved it |
| `GateCursor.PeakIsApplied` | internal/application/gate/service.go:241-266 | The furthest the cursor has ever been is the furthest event ever applied, and no stored or held cursor lies beyond it |
| `GateCursor.EventsAreAppliedOnceIff` | internal/application/gate/service.go:241-266 | Over any schedule the events applied to a task rise, none again and none out of order, if and only if each lay beyond the furthest the cursor had ever been |
| `GateCursor.FreshCursorsAreAhead` | internal/application/gate/postgres_repository.go:67-80 | While no store takes the cursor back, that is so |
| `GateCursor.EventIsAppliedTwice` | internal/application/gate/postgres_repository.go:67-80 | The input: two deliveries of one event read a running task and both store; the compare-and-set sees the state only, and the event is applied twice |
| `GateService.TaskRepository.constructor` | internal/application/gate/postgres_repository.go:153-158 | A repository opens over whatever its database holds |
| `GateService.TaskRepository.Get` | internal/application/gate/postgres_repository.go:196-223 | Returns the stored record, or none |
| `GateService.TaskRepository.CreateWithAudit` | internal/application/gate/postgres_repository.go:21-49 | Commits the record and its audit row together, or nothing when the id exists or a statement fails |
| `GateService.TaskRepository.TransitionWithAudit` | internal/application/gate/postgres_repository.go:59-96 | Check, update, audit row and delivery commit together when the state matches; a failure at any of these places rolls back all of them; a lost compare-and-set changes nothing |
| `GateService.TaskRepository.ListByState` | internal/application/gate/postgres_repository.go:263-295 | Lists exactly the tasks in the asked states with their stored records, each once |
| `GateService.Service.constructor` | internal/application/gate/service.go:358-367 | A new service has no executor, no executions and no cancel functions |
| `GateService.Service.StartExecution` | internal/application/gate/service.go:508-520 | Registers one execution and its cancel function, over any earlier one, when there is an executor, and nothing otherwise |
| `GateService.Service.EndRegistration` | internal/application/gate/service.go:522-526 | The deferred delete forgets the task's cancel function, whichever execution registered it |
| `GateContexts.CancelEndsIff` | internal/application/gate/service.go:508-529 | Over any history of executions that start and return and of cancellations: a committed cancellation ends the context of an execution if and only if, since that one was started, no execution of its task has started or returned and no cancellation of it has committed |
| `GateContexts.LateReturnHidesContext` | internal/application/gate/service.go:522-526 | The input: an execution that returns after a later one was started takes the later one's registration, and a cancellation then ends no context |
| `GateService.Service.Accept` | internal/application/gate/service.go:478-506 | Creates a task once, waiting if it needs approval and queued otherwise; acknowledges an existing id without writing; starts an execution only for a task it created queued, with its cancel function registered |
| `GateService.Service.ApproveTask` | internal/application/gate/service.go:299-322 | Reads, lets others commit, then attempts the approval's compare-and-set; the reply tells each error apart, and an execution starts exactly when the write applied, with its cancel function registered |
| `GateService.Service.ResumeTask` | internal/application/gate/service.go:273-297 | The same for a resumption of a failed task |
| `GateService.Service.CancelTask` | internal/application/gate/service.go:324-356 | The same for a cancellation; when it applied, the registered context is ended and forgotten |
| `GateService.Service.EndContext` | internal/application/gate/service.go:349-354 | Ends the context registered for the task, if any, and removes it |
| `GateService.Service.RecoverPending` | internal/application/gate/service.go:390-410 | Works through one listing of the queued and running tasks; each eligible one is requeued over what is stored by then and executed, with its cancel function registered, when its write applied; it stops early only at a store that fails |
| `GateService.Service.RecoverEntry` | internal/application/gate/service.go:395-407 | Requeues one task from the record the listing returned, never an unapproved one |
| `GateService.Service.ProjectTaskEvent` | internal/application/gate/service.go:230-271 | Refuses malformed requests untouched; otherwise attempts the projected write and replies duplicate, not found, terminal, unsupported, changed or applied accordingly |
| `GateService.TransactionIsAtomic` | internal/application/gate/postgres_repository.go:59-96 | For every place where a statement may fail: a transaction commits record, audit row and delivery over the expected state, or leaves the tables it found |
| `GateService.ReplyTells` | internal/application/gate/service.go:273-356 | What an operator is told of each call, for any interference and fault, in terms of the task it read: not found, refused with the state met, store failure, changed meanwhile, or accepted with the state left |
| `GateService.ProjectReplyTells` | internal/application/gate/service.go:230-271 | What the projector is told of each event, for any interference and fault: unknown task, duplicate, terminal, unsupported, store failure, changed meanwhile, or applied, with state and cursor |
| `GateService.Service.BeginExecution` | internal/application/gate/service.go:531-550 | Takes a queued task within its attempt budget; reports a start exactly when the "started" row committed |
| `GateService.Service.PersistProgress` | internal/application/gate/service.go:173-200 | Stores progress and its delivery together over a task that has not ended |
| `GateService.Service.EndExecution` | internal/application/gate/service.go:571-597 | Stores the outcome over whatever state the task is in, except cancelled; success carries the final delivery |
| `GateRefinement.CallRunsSchedule` | internal/application/gate/service.go:273-356 | An operator call, a recovery or an outside projection, with any schedule between its read and its store and any fault, leaves the tables and the executions that a schedule of the machine leaves |
| `GateRefinement.BeginRunsSchedule` | internal/application/gate/service.go:531-550 | The same for an execution taking its task, with the phase it is left in: working exactly when its "started" row committed |
| `GateRefinement.WorkRunsSchedule` | internal/application/gate/service.go:173-200 | The same for a started execution's progress, event or outcome, with the phase it is left in, also when there is nothing to write |
| `GateRefinement.AcceptIsStep` | internal/application/gate/service.go:478-506 | Accepting is one step: the creation, and the execution of a task created queued |
| `GateRefinement.RecoveryRunsSchedule` | internal/application/gate/service.go:390-410 | All of RecoverPending, with any schedule before each of its stores and any faults, leaves the tables of one schedule in which the listing reads every task at once, and after each entry the threads: its handler gone, and the execution of the listed record there exactly when its write applied |
| `GateProjection.ReofferingIsHarmless` | internal/application/gate/service.go:241-246 | An event that a pass over a numbered log has offered changes nothing when offered again, whether it was applied, unsupported or refused |
| `GateProjection.SegmentExtends` | internal/application/gate/service.go:241-266 | A session over any contiguous segment that starts within what was already offered leaves the record of one pass up to the further end |
| `GateProjection.SessionsExtend` | internal/application/gate/service.go:230-271 | Any number of broken-off sessions, each from a cursor at most the record's LastSequence, leave the record of one in-order pass up to the furthest event reached |
| `GateProjection.CursorResumeRefinesOnePass` | internal/application/gate/service.go:230-271 | When the last session reaches the end of the log, all sessions together leave exactly the record of a single pass |
| `GateProjection.ProjectMoves` | internal/application/gate/service.go:241-266 | A projection changes nothing, or moves the cursor forward onto the event of a task that had not ended |
| `GateProjection.StretchCompletes` | internal/application/agent/service.go:118-127 | From a cursor the record holds, stopping at the first terminal event leaves the record of going on to the end of the log |
| `GateProjection.SubscriptionCompletesPass` | internal/application/agent/service.go:118-127 | After any broken-off sessions over a numbered log, one more served from the record's cursor up to the first terminal event leaves the record of one pass over the whole log |
| `GateProjection.StretchSettles` | internal/application/gate/service.go:256-263 | A terminal event at the end of a stretch from the cursor leaves the task terminal |
| `GateSessions.ProjectedStopIsWholeIff` | internal/bootstrap/gatecore/run.go:51-53 | Leaving the execution aside: the record projected up to the first event that Gate refuses and does not call a duplicate is that of all the events if and only if the task has ended by then or only unsupported events follow |
| `GateSessions.StopIsHarmlessIff` | internal/infrastructure/agentclient/client.go:77-122 | With the failure that the execution stores after a rejection: a session leaves the record of all its events if and only if none was rejected, the task had been cancelled, or it had failed with the very text of the rejection |
| `GateSessions.RunningSessionIsWholeIff` | internal/infrastructure/agentclient/client.go:77-122 | Of a task that has not ended, a stream leaves the record of all its events if and only if it holds no unsupported event; else the task is failed at the first one |
| `GateExecutions.RejectionIsReply` | internal/bootstrap/gatecore/run.go:51-53 | The projector stops exactly where Gate's answer is that the task is terminal or the state unsupported, and never at a duplicate |
| `GateExecutions.SessionRunsSchedule` | internal/application/gate/service.go:551-585 | A session is a schedule of the machine: an execution at work that offers event after event, reports their progress and fails on a rejection leaves the record and the phase that the session function says |
| `GateExecutions.ResumptionRestarts` | internal/application/gate/service.go:273-297 | A resumption and the execution it starts leave the record running at the same cursor with one more attempt and no error, and the execution subscribes at that cursor |
| `GateExecutions.RecoveryRestarts` | internal/application/gate/service.go:390-410 | The same for a recovery at startup, which keeps the error text |
| `GateExecutions.RejectionFailsTask` | internal/bootstrap/gatecore/run.go:51-53 | The input: a task whose log runs, has one unsupported event and finishes is stored as failed, while one pass over the log is final |
| `GateExecutions.ResumedTaskOutlivesPass` | internal/application/gate/service.go:273-297 | The input: a task whose first stream took a failure and which is resumed ends final, while one pass over the log is failed |
| `EndToEnd.StreamsAreSessions` | internal/infrastructure/agentclient/client.go:77-122 | While no stream has ended the task: streams opened at the record's cursor on subscriptions of the agent machine that were served in turn, broken off anywhere, each execution starting the task again with any attempt count and error, leave the record of bare sessions over the agent's log, up to attempt, error and which live state |
| `EndToEnd.ExecutionsRefineOnePassIff` | internal/bootstrap/gatecore/run.go:40-55 | Agent publishers to Gate record, restarts between streams and the failure after a rejection included: up to attempt, error and which live state, the record is that of one pass over the agent's log if and only if no event was rejected, while no earlier stream has ended the task; once one has, if and only if the pass failed and the log goes on with an unsupported event |
| `EndToEnd.LastLifeRefinesOnePassIff` | internal/application/gate/service.go:551-585 | Whatever the first streams ended: while none after them ends the task, the record is that of one pass from the restart after them, if and only if no event of the last stream was rejected |
| `EndToEnd.StoppedStreamIsWholeIff` | internal/bootstrap/gatecore/run.go:40-55 | One execution, in whatever state its task is: it leaves exactly the record of one pass over the agent's log if and only if no event was rejected, the task was cancelled, or it had failed with the very text of the rejection |
| `TaskEvents.EventIDInjective` | internal/application/agent/events.go:29-40 | Within one task, equal event ids mean equal sequence numbers |
| `AgentService.EventStore.constructor` | internal/application/agent/events.go:25-27 | A new store has no log |
| `AgentService.EventStore.Append` | internal/application/agent/events.go:29-40 | Appends the event under the next sequence number with the id of that number; every log stays dense |
| `AgentService.EventStore.List` | internal/application/agent/events.go:42-53 | The filtering loop returns exactly the unseen end of a dense log |
| `AgentService.Service.constructor` | internal/application/agent/service.go:40-47 | A new service over a store has no subscriber |
| `AgentService.Service.Push` | internal/application/agent/service.go:173-190 | Keeps a terminal event as the task's last one, and offers the event to every channel of its task without blocking: a channel with room gets it last, a full one drops it, other tasks are untouched |
| `AgentService.Service.Publish` | internal/application/agent/service.go:170-192 | Records the event before announcing it to its task's channels only; a refused event is announced to nobody |
| `AgentService.Service.Subscribe` | internal/application/agent/service.go:133-168 | Registers a new channel that holds exactly the log beyond the cursor |
| `AgentService.Service.Cancel` | internal/application/agent/service.go:158-167 | Removes one channel and no other |
| `AgentService.Service.Receive` | internal/application/agent/service.go:107-130 | The receive loop sends the channel's events that advance the cursor, up to and including the first terminal one, and ends exactly then |
| `AgentSubscription.SentIsIncreasing` | internal/application/agent/service.go:107-130 | However many publishers race and full channels drop: what a subscriber is sent is strictly increasing, beyond its cursor and all from the log |
| `AgentSubscription.TurnsAreTheLoop` | internal/application/agent/service.go:107-130 | Receiving one event at a time until the channel is empty sends what the receive loop sends |
| `AgentSubscription.LogHoldsDrafts` | internal/application/agent/events.go:29-40 | Over every run the log holds each event as it was appended, numbered from 1 and named by its number |
| `AgentService.UpToTerminalTells` | internal/application/agent/service.go:126-128 | A stream is cut after its first final or failed event, and nowhere else |
| `AgentService.OfferTells` | internal/application/agent/service.go:184-188 | A channel with room for 16 takes an event last; a full one loses it |
| `AgentHandoff.HandoffIsExactIff` | internal/application/agent/service.go:96-192 | For any number of publishers and any drops: a subscriber with nothing left to receive or push was sent all of the log beyond its cursor, up to the first terminal event, if and only if each push it was offered was of an event it had already or of the next one with room for it |
| `AgentHandoff.HandoffWhenInTurn` | internal/application/agent/service.go:96-192 | While its pushes are in turn a subscriber, open, ended or gone, was sent a beginning of that; all of it once its stream ended |
| `AgentHandoff.InTurnIsInStep` | internal/application/agent/service.go:133-192 | The invariant behind it, over every such run |
| `AgentHandoff.OutOfTurnIsLost` | internal/application/agent/service.go:180-189 | After a push out of turn some event beyond the cursor was not sent and never will be, whatever follows |
| `AgentHandoff.OrderlyIsInTurn` | internal/application/agent/service.go:170-192 | One publisher whose pushes find room is in turn for every subscriber, wherever it attaches, also between an append and its push |
| `AgentHandoff.HandoffIsExact` | internal/application/agent/service.go:96-192 | With one publisher and no drop the handoff is therefore exact for every subscriber |
| `AgentHandoff.SentIsSegment` | internal/application/agent/service.go:96-131 | What a subscriber served in turn was sent is one contiguous stretch of the log starting at the cursor |
| `AgentRaces.RacingPublishersLoseAnEvent` | internal/application/agent/service.go:170-192 | Two publishers whose pushes overtake each other leave a drained live subscriber without the first event of the log |
| `AgentRaces.FullChannelLosesAnEvent` | internal/application/agent/service.go:184-188 | One publisher and any burst longer than the channel's 16 slots: the subscriber, drained, has the first 16 events and never the others |
| `ChannelLimiter.NewBucket` | internal/infrastructure/persistence/memory/channel/start.go:282-291 | A new limiter has positive rate and burst and starts full |
| `ChannelLimiter.WindowBound` | internal/infrastructure/persistence/memory/channel/start.go:227-250 | In every window of every run, grants <= burst + rate x time from the window's first to its last attempt |
| `ChannelLimiter.TokensAreConserved` | internal/infrastructure/persistence/memory/channel/start.go:229-237 | Tokens left plus grants never exceed the tokens at the start plus what flowed in |
| `ChannelLimiter.TokensAreExact` | internal/infrastructure/persistence/memory/channel/start.go:229-237 | While the bucket is never full, every token that flows in is left or was granted, one for one |
| `ChannelLimiter.GrantedIff` | internal/infrastructure/persistence/memory/channel/start.go:229-237 | An attempt is granted if and only if the tokens left and the flow since make up one |
| `ChannelLimiter.PauseIsExact` | internal/infrastructure/persistence/memory/channel/start.go:238-248 | A waiter short of a token is granted one at a time if and only if its pause is over by then |
| `ChannelLimiter.RunKeepsValid` | internal/infrastructure/persistence/memory/channel/start.go:229-237 | Tokens stay within [0, burst] over every run |
| `ChannelLimiter.SoleWaiterSleepsOnce` | internal/infrastructure/persistence/memory/channel/start.go:238-248 | A refused waiter that nobody overtakes is granted after sleeping its pause once |
| `ChannelLimiter.RateLimiter.constructor` | internal/infrastructure/persistence/memory/channel/start.go:282-291 | The object starts as that bucket |
| `ChannelLimiter.RateLimiter.Wait` | internal/infrastructure/persistence/memory/channel/start.go:227-250 | The wait loop takes one token exactly when it returns a grant, ends at the first sufficient pass or when its context ends during a sleep, and an undisturbed waiter passes at most twice |
| `ChannelSplit.PiecesAreWellSplit` | internal/infrastructure/persistence/memory/channel/start.go:323-353 | For a positive limit: chunks and dropped whitespace runs reassemble the content, each chunk has 1..limit runes, each after the first starts with no droppable rune, each cut is the promised one |
| `ChannelSplit.SplitIsDetermined` | internal/infrastructure/persistence/memory/channel/start.go:323-353 | No other list of pieces keeps those promises |
| `ChannelSplit.CutIsTheCut` | internal/infrastructure/persistence/memory/channel/start.go:331-343 | An index is the rightmost space, tab or newline cut at least a quarter of the limit in, or else the limit, if and only if the downward search returns it |
| `ChannelSplit.ChunksExist` | internal/infrastructure/persistence/memory/channel/start.go:310-353 | A message yields at least one chunk; chunks differ from it in content only and respect the limit |
| `ChannelSplit.ChunksFitPlatform` | internal/infrastructure/persistence/memory/channel/start.go:310-353 | Chunks for telegram, dingtalk and the wecom kinds stay within 4000, 20000 and 2048 runes; a message within the limit, or for another platform, goes as it is |
| `ChannelSplit.SplitOutbound` | internal/infrastructure/persistence/memory/channel/start.go:323-353 | The loop computes exactly these chunks |
| `ChannelSplit.FindEnd` | internal/infrastructure/persistence/memory/channel/start.go:331-343 | The inner loop computes exactly this cut |
| `ChannelWorker.BackoffIsExactIff` | internal/infrastructure/persistence/memory/channel/start.go:191 | The int64 backoff equals 250 ms doubled `attempt` times if and only if attempt <= 35; beyond that the product wraps |
| `ChannelWorker.SleptIsBounded` | internal/infrastructure/persistence/memory/channel/start.go:191 | However it wraps, a pause is never longer than the doubling says |
| `ChannelWorker.Attempts` | internal/infrastructure/persistence/memory/channel/start.go:175-196 | At most retries + 1 platform calls; all but the last refused retryably; gives up only on a permanent refusal or after the last retry; total backoff <= (2^retries - 1) x 250 ms, exactly (2^pauses - 1) x 250 ms for retries <= 36; the return after the loop is unreachable |
| `ChannelWorker.TripTells` | internal/infrastructure/persistence/memory/channel/retry.go:8-19 | Every call but the last met an error other than the six permanent ones; a message is given up only on one of these or after the last retry |
| `ChannelWorker.Deliveries.RecordWithMessageID` | internal/infrastructure/persistence/memory/channel/start.go:255-265 | Overwrites one record's outcome, keeps the time it was first accepted, and touches no other record |
| `ChannelWorker.Deliveries.Record` | internal/infrastructure/persistence/memory/channel/start.go:251-253 | The same with the message's own id |
| `ChannelWorker.Deliveries.SendWithRetry` | internal/infrastructure/persistence/memory/channel/start.go:169-197 | The record ends acknowledged exactly when the platform took the message, under the receipt's id if it gave one, else failed or cancelled with the reason; the time it was first accepted is kept |
| `ChannelWorker.Deliveries.SendChunks` | internal/infrastructure/persistence/memory/channel/start.go:148-152 | The platform accepts a beginning of the message's chunks, in order; the record says acknowledged exactly when that is all of them; it stops early only at a chunk whose calls were refused or cancelled |
| `ChannelWorker.Deliveries.RunWorker` | internal/infrastructure/persistence/memory/channel/start.go:140-168 | Over a queue with distinct ids, with the chunk limit of the channel kind: the platform accepts a beginning of each message's chunks in queue order, and each record says acknowledged exactly when that is all of them; between a message's own marks of platform use, calls and backoffs are bounded by its chunks tried, and a message not sent whole was refused or cancelled there, after its accepted chunks, as its record tells; a platform that takes everything, uncancelled, gets every chunk of every message |
| `ChannelWorker.HealthyTakesAll` | internal/infrastructure/persistence/memory/channel/start.go:169-197 | A message cut short has a platform refusal or a cancellation to show for it, so that a platform with neither acknowledges the whole queue |
| `ChannelWorker.HandledNext` | internal/infrastructure/persistence/memory/channel/start.go:144-152 | Handling one more message extends that account and leaves earlier records alone |
| `ChannelSend.SlotIsInjective` | internal/infrastructure/persistence/memory/channel/send.go:40 | Distinct channels or keys reserve distinct slots while no channel id contains the separator |
| `ChannelSend.ChannelsCollideIff` | internal/infrastructure/persistence/memory/channel/send.go:40 | Two channels have trimmed non-empty keys that share a slot if and only if the id of one is the other's, a separator, and nothing or something that trimming leaves |
| `ChannelSend.Repository.constructor` | internal/infrastructure/persistence/memory/channel/init.go:104-118 | A new repository has its channels and nothing reserved, recorded or queued |
| `ChannelSend.Repository.RecordDelivery` | internal/infrastructure/persistence/memory/channel/start.go:251-265 | Writes one delivery record and keeps its first acceptance time |
| `ChannelSend.Repository.DeleteDelivery` | internal/infrastructure/persistence/memory/channel/send.go:85-89 | Removes one record |
| `ChannelSend.Repository.Send` | internal/infrastructure/persistence/memory/channel/send.go:12-83 | The method's checks, reservation, enqueue and rollback have the effect and the receipt that the run theorems are about |
| `ChannelSend.SendTells` | internal/infrastructure/persistence/memory/channel/send.go:12-83 | What a send does and what its caller is told, case by case: refusals in order, a live reservation's id with its record, no worker, full queue, and acceptance, where the channel's queue is the old one with exactly this message last, the record says queued, the key is reserved and all else is unchanged |
| `ChannelSend.Repository.SweepReservations` | internal/infrastructure/persistence/memory/channel/start.go:124-128 | The janitor removes exactly the reservations older than 30 minutes |
| `ChannelSend.FailedEnqueueLeavesNothing` | internal/infrastructure/persistence/memory/channel/send.go:59-82 | A send that finds no worker or a full queue leaves no reservation, no record of its message and every queue as it was |
| `ChannelSend.InterleavedRepeatIsLost` | internal/infrastructure/persistence/memory/channel/send.go:41-82 | The smallest such race: a second send between a reservation and its rollback is told an id that is never queued |
| `ChannelRuns.RunIsKept` | internal/infrastructure/persistence/memory/channel/send.go:34-83 | The invariant of every interleaving of the critical sections of any sends with the janitor, workers and time: each reservation is its owner's; each send not rolled back has its reservation within the window unless another send's rollback deleted it; each repeat names the send that owned the slot |
| `ChannelRuns.DuplicatesWereRobbed` | internal/infrastructure/persistence/memory/channel/send.go:59-82 | In every interleaving: two messages enqueued for one channel and trimmed key within 30 minutes, or a repeat that names another send, need a third send whose rollback deleted the first one's reservation |
| `ChannelRuns.TimelySendsAreIdempotent` | internal/infrastructure/persistence/memory/channel/send.go:34-83 | In every interleaving in which each rollback comes within the window of its own reservation: two messages enqueued for one channel and trimmed key were reserved more than 30 minutes apart, and every keyed send in between was told the first id |
| `ChannelRuns.NobodyIsRobbed` | internal/infrastructure/persistence/memory/channel/send.go:63-67 | In such runs no rollback deletes the reservation of another send |
| `ChannelRuns.LateRollbackDuplicates` | internal/infrastructure/persistence/memory/channel/send.go:76-80 | A rollback later than the window: the same request is enqueued twice at the same time |
| `ChannelDuplicates.NeverDuplicatedIff` | internal/infrastructure/persistence/memory/channel/send.go:34-83 | The exact condition, at any point of any interleaving: a keyed message within its window is never enqueued again, however the run goes on, if and only if its reservation was not deleted and every other send of its slot is over |
| `ChannelRuns.RepeatIsLostIff` | internal/infrastructure/persistence/memory/channel/send.go:41-82 | In every interleaving a repeat names the send whose live reservation it found, and that send's message is never enqueued, however the run goes on, if and only if that send failed |
| `ChannelRuns.OfferFailsIff` | internal/infrastructure/persistence/memory/channel/send.go:59-82 | A send fails exactly when its channel has no worker or its worker's queue is full |
| `ChannelQueues.QueueHoldsEnqueued` | internal/infrastructure/persistence/memory/channel/send.go:59-74 | In every interleaving, while a worker runs: the messages it has taken, followed by those in its queue, are exactly the messages of the sends enqueued for its channel since it was started, in the order of their offers; the queue is within its capacity |
| `ChannelQueues.StepOnQueue` | internal/infrastructure/persistence/memory/channel/send.go:70-82 | One step of any send, worker or janitor adds the message it enqueues at the end of its own channel's queue, takes the head, or leaves the queue alone |
| `ChannelRuns.WholeIsSend` | internal/infrastructure/persistence/memory/channel/send.go:12-83 | Critical sections with nothing in between have the effect of the Send method |
| `ChannelRuns.SendIsIdempotent` | internal/infrastructure/persistence/memory/channel/send.go:34-83 | Over every run of uninterrupted sends: two messages enqueued for one channel and trimmed key were reserved more than 30 minutes apart, and every keyed send in between was told the first id |
| `ChannelRuns.RepeatNamesEnqueued` | internal/infrastructure/persistence/memory/channel/send.go:42-52 | Uninterrupted, a repeat's id was enqueued for the same slot at most 30 minutes before |
| `ChannelFanout.ApplyGroupTrigger` | internal/infrastructure/persistence/memory/channel/publish.go:85-107 | Group messages pass when they mention the bot, have no prefix to meet, or start with the first matching prefix, which is cut off; others pass unchanged |
| `ChannelFanout.FanoutIsFaithful` | internal/infrastructure/persistence/memory/channel/publish.go:24-42 | However concurrent publishers, subscribers and shutdown interleave: received + queued is an in-order part of what was offered, which is what the visiting publishers carried and the filter matches; queues hold at most 64; a subscription is closed once if gone, else never |
| `ChannelFanout.DropsAreConserved` | internal/infrastructure/persistence/memory/channel/publish.go:40-42 | The drop counter plus what publishers have yet to count equals the messages missing over all subscriptions ever |
| `ChannelFanout.PublishersVisitTheirScope` | internal/infrastructure/persistence/memory/channel/publish.go:27-39 | A publisher that released the lock has tried every subscription that was live when it took it |
| `ChannelFanout.FanoutKeepsOrder` | internal/infrastructure/persistence/memory/channel/publish.go:11-50 | When publishes do not overlap, what was offered is in the order of publication |
| `ChannelFanout.SeenAgrees` | internal/infrastructure/persistence/memory/channel/publish.go:27-38 | Counting offers by publisher and listing them agree |
| `ChannelOffers.OffersAreWanted` | internal/infrastructure/persistence/memory/channel/publish.go:27-38 | In every interleaving a subscription was offered a message exactly as often as publishers of it visited, when its filter is empty or names the channel, and never otherwise |
| `ChannelOffers.VisitTells` | internal/infrastructure/persistence/memory/channel/publish.go:28-38 | A visit queues a wanted message last, counts it as dropped when 64 are waiting, and passes over an unwanted one |
| `ChannelOffers.PublishersWerePublished` | internal/infrastructure/persistence/memory/channel/publish.go:24-27 | Every publisher carries the message of its publish and tries the subscriptions live at that moment |
| `ChannelOffers.SubscriptionsWereMade` | internal/infrastructure/persistence/memory/channel/subscribe.go:20-25 | Every subscription has the filter it was made with, while nobody was publishing |
| `ChannelFanout.Repository.constructor` | internal/infrastructure/persistence/memory/channel/init.go:104-118 | A new repository has no subscription and no drop |
| `ChannelFanout.Repository.TryEnqueue` | internal/infrastructure/persistence/memory/channel/publish.go:33-37 | The non-blocking send queues last or drops, for one subscription |
| `ChannelFanout.Repository.OfferToAll` | internal/infrastructure/persistence/memory/channel/publish.go:27-38 | The loop tries every live subscription once, in any order, and returns how many dropped |
| `ChannelFanout.Repository.Publish` | internal/infrastructure/persistence/memory/channel/publish.go:24-42 | Adds exactly the drops of this message to the counter |
| `ChannelFanout.Repository.Subscribe` | internal/infrastructure/persistence/memory/channel/subscribe.go:20-25 | A fresh id, an empty queue, nothing else changed |
| `ChannelFanout.Repository.Cancel` | internal/infrastructure/persistence/memory/channel/subscribe.go:26-33 | The first cancel closes the subscription, later ones change nothing |
| `ChannelFanout.Repository.Stop` | internal/infrastructure/persistence/memory/channel/stop.go:9-50 | Shutdown closes every remaining subscription once |
| `ChannelActions.ActionIDInjective` | internal/infrastructure/persistence/memory/channel/start_typing.go:32-37 | Action ids made at different counter values differ, whatever the clock reads |
| `ChannelActions.IDsAreNeverReused` | internal/infrastructure/persistence/memory/channel/start_typing.go:32-37 | In every interleaving the next id was never in a table, a thread, a callback or the registered ids |
| `ChannelActions.CallbacksRunOnce` | internal/infrastructure/persistence/memory/channel/complete_reaction.go:7-23 | In every interleaving of start, stop, complete, expire and janitor: at most one callback of an action ever runs; once it ran the action is gone and nobody holds its callback; a registered action is live or consumed and never both |
| `ChannelActions.CallbacksWereCalledFor` | internal/infrastructure/persistence/memory/channel/complete_reaction.go:7-23 | In every interleaving each callback that ran was called for: a stop by stopping a live typing or sweeping one past 5 minutes, a complete by completing a live reaction, an expire by not completing one or sweeping one past 30 minutes |
| `ChannelActions.StepHolds` | internal/infrastructure/persistence/memory/channel/start.go:100-135 | A step holds every callback it calls for, and no other that was not held before |
| `ChannelActions.RegisterTells` | internal/infrastructure/persistence/memory/channel/start_typing.go:12-31 | A registration makes the entry that was allocated, at its own time |
| `ChannelActions.RunIsSound` | internal/infrastructure/persistence/memory/channel/start.go:100-135 | The invariant behind both, over every schedule |
| `ChannelActions.SweepIsTracked` | internal/infrastructure/persistence/memory/channel/start.go:100-135 | A janitor pass keeps every action in one place |
| `ChannelPrepare.Repository.constructor` | internal/infrastructure/persistence/memory/channel/init.go:104-118 | A new repository has no live action |
| `ChannelPrepare.Repository.NewActionID` | internal/infrastructure/persistence/memory/channel/start_typing.go:32-37 | A fresh id that neither table holds |
| `ChannelPrepare.Repository.StartTyping` | internal/infrastructure/persistence/memory/channel/start_typing.go:12-31 | Registers one typing under a fresh id, or fails changing nothing |
| `ChannelPrepare.Repository.StopTyping` | internal/infrastructure/persistence/memory/channel/stop_typing.go:3-12 | Removes the typing and runs its stop if it has one; an unknown id changes nothing |
| `ChannelPrepare.Repository.ReactToMessage` | internal/infrastructure/persistence/memory/channel/react_to_message.go:11-29 | Registers one reaction under a fresh id, or fails changing nothing |
| `ChannelPrepare.Repository.ApplyReaction` | internal/infrastructure/persistence/memory/channel/complete_reaction.go:7-23 | Removes the reaction and runs the one callback asked for, if it has it |
| `ChannelPrepare.Repository.CleanUp` | internal/infrastructure/persistence/memory/channel/init.go:170-172 | Undoes the listed actions in order |
| `ChannelPrepare.Repository.TryTyping` | internal/infrastructure/persistence/memory/channel/init.go:157-164 | Starts typing for a message with a target; unsupported is no failure |
| `ChannelPrepare.Repository.TryReaction` | internal/infrastructure/persistence/memory/channel/init.go:165-175 | Reacts to a message that asks for it; unsupported is no failure |
| `ChannelPrepare.Repository.PrepareInbound` | internal/infrastructure/persistence/memory/channel/init.go:154-187 | For every pattern of working, unsupported and failing capabilities: an error leaves the live actions as before and has run each started action's stop or expire once; success leaves live exactly the receipt's actions and runs nothing; a reaction was started exactly when it was asked for, works, and typing did not fail before it |
| `ChannelPrepare.UndoBoth` | internal/infrastructure/persistence/memory/channel/init.go:154-187 | Cleaning up after a typing and a reaction restores the tables and fires exactly their stop and expire |
| `ChannelPrepare.Repository.SweepActions` | internal/infrastructure/persistence/memory/channel/start.go:100-135 | The janitor removes exactly the typings past 5 and reactions past 30 minutes and runs each one's stop or expire once |
| `ChannelPrepare.Repository.SweepTypings` | internal/infrastructure/persistence/memory/channel/start.go:103-110 | Its loop over the typings |
| `ChannelPrepare.Repository.SweepReactions` | internal/infrastructure/persistence/memory/channel/start.go:111-118 | Its loop over the reactions |
| `LoopService.Service.constructor` | internal/application/loop/service.go:61 | A new service stores no run |
| `LoopService.Service.StartRun` | internal/application/loop/service.go:84-119 | Stores a run with its first step running, or a final one without steps; refuses blank ids and existing runs, and stores nothing on any error |
| `LoopService.Service.AdvanceStep` | internal/application/loop/service.go:135-204 | The search loop and the field updates have the effect and reply that the run theorems are about, with every error leaving the stored runs as they were |
| `LoopService.Service.CancelRun` | internal/application/loop/service.go:206-233 | The same for a cancellation |
| `LoopService.StartTells` | internal/application/loop/service.go:84-119 | Every field of a new run and of its steps, as requested |
| `LoopService.AdvanceTells` | internal/application/loop/service.go:153-197 | Every field after a report about a step: within its limit the step takes state, output, error and iteration, a final one hands output and turn on, a failed one fails the run; beyond the limit the step fails with its text; nothing else changes |
| `LoopService.CancelTells` | internal/application/loop/service.go:206-233 | A cancellation takes effect if and only if the run has not ended, with the trimmed reason or the default one |
| `LoopService.RefusalTells` | internal/application/loop/service.go:84-233 | Which requests are refused, with what, and that they change nothing; a run that has ended is returned as it is |
| `LoopRun.AdvanceKeepsShapeIff` | internal/application/loop/service.go:169-197 | An advance of a running run in shape keeps the shape if and only if it reports the current step, or reports the step before it final once more within its limit |
| `LoopRun.ShapeHoldsIff` | internal/application/loop/service.go:84-204 | Callers that always name the current step keep a run in shape over every sequence of moves if and only if its step ids are distinct |
| `LoopRun.PlayedKeepsShape` | internal/application/loop/service.go:135-233 | With distinct ids and every advance naming the current step: a running run reads final* running queued* with the current step and the output to match; failed and cancelled ones likewise; a final one has only final steps |
| `LoopRun.FinalIffStepsAre` | internal/application/loop/service.go:186-196 | A run in shape is final exactly when all of its steps are |
| `LoopRun.RepeatBreaksShape` | internal/application/loop/service.go:153-159 | With a repeated step id, a caller that always names the current step can break the shape, because the search finds the earlier step |
| `LoopRun.EndedRunStays` | internal/application/loop/service.go:149-152 | For any caller, no sequence of moves changes a run that has ended |
| `LoopRun.IterationsAreBounded` | internal/application/loop/service.go:169-181 | For any caller, no step's iteration passes its positive limit, and the steps stay those of the request |
| `LoopRun.FirstAt` | internal/application/loop/service.go:153-159 | The search yields the first step with the id, or the number of steps |
| `LoopService.RunsAreInShape` | internal/application/loop/service.go:84-233 | Under orderly callers and any store failures, every run ever stored is in shape, and final exactly when its steps are |
| `LoopService.RunsAreWithinLimits` | internal/application/loop/service.go:135-204 | Whatever the callers and the store do, every stored run respects its limits |
| `LoopService.EndedRunIsPermanent` | internal/application/loop/service.go:149-152 | Whatever the callers and the store do, an ended run is stored unchanged for good |

## Left out

- ChannelWorker.Deliveries.SendWithRetry: records one fixed text for a context that ended, where the source records which of its two context errors it was, and takes one clock reading for all of its records.
- ChannelFanout.Repository.Stop: covers subscriptions only; stopping the workers and waiting for them is not modelled.
- AgentService.Service.Subscribe: a replay longer than the channel's 16 slots blocks forever in the source; the model returns no channel. The branch taken when the store's listing fails is not modelled.
- EndToEnd.ExecutionsRefineOnePassIff: nothing but the stream's own execution changes the record during a stream, and what comes between two streams changes no more than state, attempt and error; so does EndToEnd.LastLifeRefinesOnePassIff. The agent's own outcome, which an execution stores after a stream that was not rejected, is left out of the last record; before a restart it can only be a failure, which is one of the changes allowed.
- GateExecutions.SessionRunsSchedule: events carry progress only in the progress state, as both agent backends publish them.
- ChannelRuns.RunIsKept: a send's clock reading and its reservation are one step; in the source the clock is read just before the lock is taken.
- ChannelSend.Repository.Send: a queue's worker is looked up, the record written and the queue tried in one step; in the source a worker may stop between these.
- ChannelLimiter.RateLimiter.Wait: time and tokens are real numbers, so float rounding and the truncation of the pause to whole nanoseconds are not modelled; other waiters pass between two waits, not between two passes of one wait, except in the runs of `WindowBound`.
- The memory-only Gate configuration: its progress write is a blind overwrite and its audit append a separate step.
- A transaction whose commit succeeds while its client sees an error: a fault in the model leaves the tables as they were.
- SQL text, JSON encoding, advisory locks and the outbox library's own dispatcher: a transaction is one step that commits or does nothing.
- Wall-time limits and cancelled contexts of executions appear as aborts and failures at arbitrary points.
- Audit row ids and timestamps, and the times of events.
- The agent service without an event store, which replays only the last event of a task.
- Media messages, the drain of a stopping worker (it sends queued messages unsplit), the inbound forwarder queue, and the normalization of inbound fields.
- Content that is not valid UTF-8: content is a sequence of runes.
- Nil requests and nil contexts, which the source refuses.
- Platform callbacks are flags and names; what they do is outside.
- The width of int32 and int64 counters, except in the backoff: attempts, sequences and iterations are unbounded.
- The aliasing that cloning of runs, metadata and events prevents: records are values.
- Registry lookups, status counters, message edits, notification forwarding and outbound authorization rules: easy members; an authorizer's verdict is a parameter of Send.
