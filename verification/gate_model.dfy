/** GateCore's durable data, and what each handler writes after reading a record. */
module GateModel {
  import opened Sequences
  import opened Text
  import opened TaskEvents

  type TaskID = string

  datatype TaskState =
    | WaitingApproval
    | QueuedState
    | RunningState
    | FinalState
    | FailedState
    | CancelledState

  predicate IsTerminal(state: TaskState)
  {
    state == FinalState || state == FailedState || state == CancelledState
  }

  /** One row of the task table. */
  datatype TaskRecord = TaskRecord(
    channelID: string,
    targetID: string,
    content: string,
    metadata: map<string, string>,
    error: string,
    result: string,
    progress: string,
    progressState: string,
    state: TaskState,
    lastSequence: int,
    lastEventID: string,
    attempt: int,
    maxAttempts: int,
    maxWallTimeMS: int,
    requireApproval: bool,
    approvalGranted: bool)

  /** The stable task input handed to the executor and carried by its deliveries. */
  datatype Task = Task(
    id: TaskID,
    channelID: string,
    targetID: string,
    content: string,
    metadata: map<string, string>,
    eventSequence: int)

  function TaskFor(id: TaskID, entry: TaskRecord): Task
  {
    Task(id, entry.channelID, entry.targetID, entry.content, entry.metadata, entry.lastSequence)
  }

  datatype AuditAction =
    | Created
    | Approved
    | Resumed
    | Cancelled
    | Recovered
    | Started
    | ExecutionFailed
    | Finished
    | AgentReported(event: EventState)

  /** One audit row; from is None in the row that creates the task. */
  datatype AuditRow = AuditRow(
    taskID: TaskID, action: AuditAction, from: Option<TaskState>, to: TaskState, reason: string)

  datatype OutboxRow =
    | FinalDelivery(task: Task, result: string)
    | ProgressDelivery(task: Task, progressState: string, progress: string)

  /** The three tables that a GateCore transaction touches. */
  datatype Database = Database(
    tasks: map<TaskID, TaskRecord>, audit: seq<AuditRow>, outbox: seq<OutboxRow>)

  const EMPTY_DATABASE := Database(map[], [], [])

  /** A compare-and-set on the task's state, with the rows that commit in the same transaction. */
  datatype Write = Write(
    id: TaskID, expected: TaskState, record: TaskRecord, row: AuditRow, delivery: Option<OutboxRow>)

  predicate Applies(db: Database, w: Write)
  {
    w.id in db.tasks && db.tasks[w.id].state == w.expected
  }

  /** The effect of a transaction that reaches its commit. */
  function Commit(db: Database, w: Write): Database
  {
    if Applies(db, w) then
      Database(
        db.tasks[w.id := w.record],
        db.audit + [w.row],
        if w.delivery.Some? then db.outbox + [w.delivery.value] else db.outbox)
    else
      db
  }

  /** The policy options a dispatch carries. */
  datatype TaskOptions = TaskOptions(requireApproval: bool, maxAttempts: int, maxWallTimeMS: int)

  datatype Dispatch = Dispatch(
    channelID: string, targetID: string, content: string, metadata: map<string, string>, options: TaskOptions)

  function NewRecord(d: Dispatch): TaskRecord
  {
    TaskRecord(
      d.channelID, d.targetID, d.content, d.metadata, "", "", "", "",
      if d.options.requireApproval then WaitingApproval else QueuedState,
      0, "", 0, d.options.maxAttempts, d.options.maxWallTimeMS, d.options.requireApproval, false)
  }

  /** The creating transaction; the primary key refuses an id that exists. */
  function Create(db: Database, id: TaskID, record: TaskRecord): Database
  {
    if id in db.tasks then db
    else db.(
      tasks := db.tasks[id := record],
      audit := db.audit + [AuditRow(id, Created, None, record.state, "")])
  }

  /** An event as the projection endpoint receives it. */
  datatype Projection = Projection(
    eventID: string,
    sequence: int,
    state: EventState,
    content: string,
    error: string,
    progressState: string,
    progressContent: string)

  /** The request taskEventProjector builds from a streamed event. */
  function ProjectionOf(e: TaskEvent): Projection
  {
    var (status, preview) := if e.progress.Some? then e.progress.value else ("", "");
    Projection(e.eventID, e.sequence, e.state, e.content, e.error, status, preview)
  }

  /** Handlers that act on a task from outside its execution. */
  datatype Call =
    | Approve(reason: string)
    | Resume(reason: string)
    | Cancel(reason: string)
    | Recover
    | Project(event: Projection)

  /** What a running execution does to its task. */
  datatype Work =
    | ReportProgress(progressState: string, progress: string)
    | ApplyEvent(event: Projection)
    | Fail(error: string)
    | Finish(result: string)

  function CancelReason(reason: string): string
  {
    if TrimSpace(reason) == "" then "cancelled by operator" else TrimSpace(reason)
  }

  predicate IsDuplicate(entry: TaskRecord, e: Projection)
  {
    e.sequence <= entry.lastSequence || e.eventID == entry.lastEventID
  }

  /** The record an accepted event leaves, before the cursor moves; None when the state is unsupported. */
  function Projected(entry: TaskRecord, e: Projection): Option<TaskRecord>
  {
    match e.state
    case Running => Some(entry.(state := RunningState))
    case Queued => Some(entry.(state := QueuedState))
    case Progress => Some(entry.(progressState := e.progressState, progress := e.progressContent))
    case Final => Some(entry.(state := FinalState, result := e.content))
    case Failed => Some(entry.(state := FailedState, error := e.error))
    case Other(_) => None
  }

  /** What ProjectTaskEvent writes after reading entry; None when it writes nothing. */
  function PlanProjection(id: TaskID, e: Projection, entry: TaskRecord): Option<Write>
  {
    if IsDuplicate(entry, e) || IsTerminal(entry.state) || Projected(entry, e).None? then None
    else
      var next := Projected(entry, e).value.(lastSequence := e.sequence, lastEventID := e.eventID);
      Some(Write(id, entry.state, next,
                 AuditRow(id, AgentReported(e.state), Some(entry.state), next.state, e.error), None))
  }

  /** What an operator call, a recovery or an outside projection writes after reading entry. */
  function PlanCall(id: TaskID, call: Call, entry: TaskRecord): Option<Write>
  {
    match call
    case Approve(reason) =>
      if !entry.requireApproval || entry.state != WaitingApproval then None
      else Some(Write(id, WaitingApproval, entry.(approvalGranted := true, state := QueuedState),
                      AuditRow(id, Approved, Some(WaitingApproval), QueuedState, reason), None))
    case Resume(reason) =>
      if entry.state != FailedState then None
      else Some(Write(id, FailedState, entry.(state := QueuedState, error := ""),
                      AuditRow(id, Resumed, Some(FailedState), QueuedState, reason), None))
    case Cancel(reason) =>
      if IsTerminal(entry.state) then None
      else Some(Write(id, entry.state, entry.(state := CancelledState, error := CancelReason(reason)),
                      AuditRow(id, Cancelled, Some(entry.state), CancelledState, CancelReason(reason)), None))
    case Recover =>
      if (entry.state != QueuedState && entry.state != RunningState)
        || (entry.requireApproval && !entry.approvalGranted) then None
      else Some(Write(id, entry.state, entry.(state := QueuedState),
                      AuditRow(id, Recovered, Some(entry.state), QueuedState, "process startup recovery"), None))
    case Project(e) =>
      PlanProjection(id, e, entry)
  }

  /** What an execution writes when it picks the task up. */
  function PlanStart(id: TaskID, entry: TaskRecord): Option<Write>
  {
    if entry.state != QueuedState then None
    else
      var next := entry.(state := RunningState, attempt := entry.attempt + 1);
      if next.maxAttempts > 0 && next.attempt > next.maxAttempts then
        Some(Write(id, QueuedState, next.(state := FailedState, error := "maximum attempts exceeded"),
                   AuditRow(id, ExecutionFailed, Some(QueuedState), FailedState, "maximum attempts exceeded"), None))
      else
        Some(Write(id, QueuedState, next, AuditRow(id, Started, Some(QueuedState), RunningState, ""), None))
  }

  /** What a started execution writes for one piece of work after reading entry. */
  function PlanWork(task: Task, work: Work, entry: TaskRecord): Option<Write>
  {
    match work
    case ReportProgress(state, content) =>
      if IsTerminal(entry.state) then None
      else Some(Write(task.id, entry.state, entry.(progressState := state, progress := content),
                      AuditRow(task.id, AgentReported(Progress), Some(entry.state), entry.state, state),
                      Some(ProgressDelivery(task, state, content))))
    case ApplyEvent(e) =>
      PlanProjection(task.id, e, entry)
    case Fail(error) =>
      if entry.state == CancelledState then None
      else Some(Write(task.id, entry.state, entry.(state := FailedState, error := error),
                      AuditRow(task.id, ExecutionFailed, Some(entry.state), FailedState, error), None))
    case Finish(result) =>
      if entry.state == CancelledState then None
      else Some(Write(task.id, entry.state, entry.(state := FinalState, result := result),
                      AuditRow(task.id, Finished, Some(entry.state), FinalState, ""),
                      Some(FinalDelivery(task, result))))
  }
}
