/**
 What one handler does to its task when nothing comes between its read and its store, in terms of the task's own
 fields: when it acts, and what it leaves of the record, the audit trail, the deliveries and the executions.
 */
module GateEffects {
  import opened Sequences
  import opened Text
  import opened TaskEvents
  import opened GateModel
  import opened GateMachine
  import opened GateAttempts

  predicate InState(s: State, id: TaskID, states: set<TaskState>)
  {
    id in s.db.tasks && s.db.tasks[id].state in states
  }

  /** Record next over the task, one audit row more, and perhaps a delivery. */
  function Stored(db: Database, id: TaskID, next: TaskRecord, action: AuditAction, reason: string,
                  deliveries: seq<OutboxRow>): Database
    requires id in db.tasks
  {
    Database(db.tasks[id := next], db.audit + [AuditRow(id, action, Some(db.tasks[id].state), next.state, reason)],
             db.outbox + deliveries)
  }

  /** A handler that ends, and the execution it starts, if any. */
  function AfterCall(s: State, db: Database, started: seq<Task>): State
  {
    State(db, s.threads + [Gone] + seq(|started|, i requires 0 <= i < |started| => Execution(started[i], Spawned)))
  }

  /** The stable input of a task: what it was accepted with, and its cursor. */
  function InputOf(id: TaskID, r: TaskRecord): Task
  {
    Task(id, r.channelID, r.targetID, r.content, r.metadata, r.lastSequence)
  }

  function AtOnce(s: State, id: TaskID, call: Call): State
  {
    ReadAndStore(s, Invoke(id, call), |s.threads|)
  }

  lemma CallEnds(s: State, id: TaskID, call: Call)
    requires id in s.db.tasks && PlanCall(id, call, s.db.tasks[id]).Some?
    ensures var w := PlanCall(id, call, s.db.tasks[id]).value;
      && AtOnce(s, id, call)
         == State(Commit(s.db, w), s.threads + [Gone] + SpawnedBy(Handler(id, call, s.db.tasks[id]), w))
      && Applies(s.db, w)
  {
    var h := Handler(id, call, s.db.tasks[id]);
    WriteShape(h);
    assert (s.threads + [h])[|s.threads| := Gone] == s.threads + [Gone];
    assert s.threads + [Gone] + [] == s.threads + [Gone];
  }

  lemma CallSkipsAtOnce(s: State, id: TaskID, call: Call)
    requires id in s.db.tasks ==> PlanCall(id, call, s.db.tasks[id]).None?
    ensures AtOnce(s, id, call) == s
  {
  }

  /** A cancellation takes effect exactly on a task that has not ended, with its trimmed reason. */
  lemma CancelTakesEffectIff(s: State, id: TaskID, reason: string)
    ensures AtOnce(s, id, Cancel(reason)) ==
      if InState(s, id, {WaitingApproval, QueuedState, RunningState}) then
        var text := if TrimSpace(reason) == "" then "cancelled by operator" else TrimSpace(reason);
        AfterCall(s, Stored(s.db, id, s.db.tasks[id].(state := CancelledState, error := text), Cancelled, text, []), [])
      else s
  {
    if InState(s, id, {WaitingApproval, QueuedState, RunningState}) {
      CallEnds(s, id, Cancel(reason));
    } else {
      CallSkipsAtOnce(s, id, Cancel(reason));
    }
    assert s.db.outbox + [] == s.db.outbox && s.threads + [Gone] + [] == s.threads + [Gone];
    hide ReadAndStore;
  }

  /** An approval takes effect exactly on a task that needs one and waits: granted, queued, and executed once. */
  lemma ApproveTakesEffectIff(s: State, id: TaskID, reason: string)
    ensures AtOnce(s, id, Approve(reason)) ==
      if InState(s, id, {WaitingApproval}) && s.db.tasks[id].requireApproval then
        var next := s.db.tasks[id].(state := QueuedState, approvalGranted := true);
        AfterCall(s, Stored(s.db, id, next, Approved, reason, []), [InputOf(id, s.db.tasks[id])])
      else s
  {
    if InState(s, id, {WaitingApproval}) && s.db.tasks[id].requireApproval {
      CallEnds(s, id, Approve(reason));
    } else {
      CallSkipsAtOnce(s, id, Approve(reason));
    }
    assert s.db.outbox + [] == s.db.outbox;
    hide ReadAndStore;
  }

  /** A resumption takes effect exactly on a failed task: its error cleared, queued, and executed once. */
  lemma ResumeTakesEffectIff(s: State, id: TaskID, reason: string)
    ensures AtOnce(s, id, Resume(reason)) ==
      if InState(s, id, {FailedState}) then
        var next := s.db.tasks[id].(state := QueuedState, error := "");
        AfterCall(s, Stored(s.db, id, next, Resumed, reason, []), [InputOf(id, s.db.tasks[id])])
      else s
  {
    if InState(s, id, {FailedState}) {
      CallEnds(s, id, Resume(reason));
    } else {
      CallSkipsAtOnce(s, id, Resume(reason));
    }
    assert s.db.outbox + [] == s.db.outbox;
    hide ReadAndStore;
  }

  /** A recovery takes effect exactly on a queued or running task that is approved or needs no approval. */
  lemma RecoverTakesEffectIff(s: State, id: TaskID)
    ensures AtOnce(s, id, Recover) ==
      if InState(s, id, {QueuedState, RunningState})
         && (!s.db.tasks[id].requireApproval || s.db.tasks[id].approvalGranted) then
        AfterCall(s, Stored(s.db, id, s.db.tasks[id].(state := QueuedState), Recovered, "process startup recovery", []),
                  [InputOf(id, s.db.tasks[id])])
      else s
  {
    if InState(s, id, {QueuedState, RunningState})
       && (!s.db.tasks[id].requireApproval || s.db.tasks[id].approvalGranted) {
      CallEnds(s, id, Recover);
    } else {
      CallSkipsAtOnce(s, id, Recover);
    }
    assert s.db.outbox + [] == s.db.outbox;
    hide ReadAndStore;
  }

  /** Gate takes an event of a task that has not ended when it is new and in a state that Gate knows. */
  predicate IsTaken(s: State, id: TaskID, e: Projection)
  {
    && InState(s, id, {WaitingApproval, QueuedState, RunningState}) && !e.state.Other?
    && e.sequence > s.db.tasks[id].lastSequence && e.eventID != s.db.tasks[id].lastEventID
  }

  /** The record with what the event reports, and the cursor on the event. */
  function Reported(r: TaskRecord, e: Projection): TaskRecord
    requires !e.state.Other?
  {
    var moved := r.(lastSequence := e.sequence, lastEventID := e.eventID);
    match e.state
    case Running => moved.(state := RunningState)
    case Queued => moved.(state := QueuedState)
    case Progress => moved.(progressState := e.progressState, progress := e.progressContent)
    case Final => moved.(state := FinalState, result := e.content)
    case Failed => moved.(state := FailedState, error := e.error)
  }

  /** An event from outside an execution takes effect exactly when it is taken. */
  lemma ProjectTakesEffectIff(s: State, id: TaskID, e: Projection)
    ensures AtOnce(s, id, Project(e)) ==
      if IsTaken(s, id, e) then
        AfterCall(s, Stored(s.db, id, Reported(s.db.tasks[id], e), AgentReported(e.state), e.error, []), [])
      else s
  {
    if IsTaken(s, id, e) {
      CallEnds(s, id, Project(e));
    } else {
      CallSkipsAtOnce(s, id, Project(e));
    }
    assert s.db.outbox + [] == s.db.outbox && s.threads + [Gone] + [] == s.threads + [Gone];
    hide ReadAndStore;
  }

  // ---- Creation and executions ----

  /** A dispatch creates an unknown task once, as it was sent, waiting exactly when it needs approval. */
  lemma AcceptTakesEffectIff(s: State, id: TaskID, d: Dispatch)
    ensures var after := Step(s, Accept(id, d));
      if id in s.db.tasks then after == s
      else
        && id in after.db.tasks && after.db.tasks == s.db.tasks[id := after.db.tasks[id]]
        && var r := after.db.tasks[id];
           && r.channelID == d.channelID && r.targetID == d.targetID
           && r.content == d.content && r.metadata == d.metadata
           && r.maxAttempts == d.options.maxAttempts && r.maxWallTimeMS == d.options.maxWallTimeMS
           && r.requireApproval == d.options.requireApproval && !r.approvalGranted
           && r.state == (if d.options.requireApproval then WaitingApproval else QueuedState)
           && r.error == r.result == r.progress == r.progressState == r.lastEventID == ""
           && r.attempt == r.lastSequence == 0
           && after.db.audit == s.db.audit + [AuditRow(id, Created, None, r.state, "")]
           && after.db.outbox == s.db.outbox
           && after.threads
              == s.threads + if d.options.requireApproval then [] else [Execution(InputOf(id, r), Spawned)]
  {
    assert s.threads + [] == s.threads;
  }

  function PhaseSet(s: State, i: nat, db: Database, phase: Phase): State
    requires i < |s.threads| && s.threads[i].Execution?
  {
    State(db, s.threads[i := Execution(s.threads[i].task, phase)])
  }

  /** An execution starts exactly a queued task within its attempts; beyond them it fails the task. */
  lemma BeginTakesEffectIff(s: State, i: nat)
    requires i < |s.threads| && s.threads[i].Execution? && s.threads[i].phase.Spawned?
    ensures var id := s.threads[i].task.id;
      ReadAndStore(s, Begin(i), i) ==
        if !InState(s, id, {QueuedState}) then PhaseSet(s, i, s.db, Ended(NeverStarted))
        else
          var next := s.db.tasks[id].(attempt := s.db.tasks[id].attempt + 1);
          if next.maxAttempts > 0 && next.attempt > next.maxAttempts then
            var text := "maximum attempts exceeded";
            PhaseSet(s, i, Stored(s.db, id, next.(state := FailedState, error := text), ExecutionFailed, text, []),
                     Ended(NeverStarted))
          else PhaseSet(s, i, Stored(s.db, id, next.(state := RunningState), Started, "", []), Working)
  {
    var id := s.threads[i].task.id;
    assert s.db.outbox + [] == s.db.outbox;
    if InState(s, id, {QueuedState}) {
      WorkEnds(s, Begin(i), i, Starting(s.db.tasks[id]));
    }
  }

  /** A thread that reads a write to make over the stored record makes it. */
  lemma WorkEnds(s: State, read: Action, i: nat, phase: Phase)
    requires i < |s.threads| && s.threads[i].Execution? && Step(s, read) == SetPhase(s, i, phase)
    requires WriteOf(Execution(s.threads[i].task, phase)).Some?
    requires Applies(s.db, WriteOf(Execution(s.threads[i].task, phase)).value)
    ensures var t := Execution(s.threads[i].task, phase);
      ReadAndStore(s, read, i) == State(Commit(s.db, WriteOf(t).value), s.threads[i := Settle(t, true)])
  {
    var t := Execution(s.threads[i].task, phase);
    assert s.threads[i := t][i := Settle(t, true)] + [] == s.threads[i := Settle(t, true)];
    hide WriteOf;
    hide Settle;
  }

  predicate Works(s: State, i: nat)
  {
    i < |s.threads| && s.threads[i].Execution? && s.threads[i].phase.Working?
  }

  /** Progress is stored and delivered exactly while the task has not ended. */
  lemma ReportTakesEffectIff(s: State, i: nat, status: string, content: string)
    requires Works(s, i)
    ensures var task := s.threads[i].task;
      ReadAndStore(s, Do(i, ReportProgress(status, content)), i) ==
        if InState(s, task.id, {WaitingApproval, QueuedState, RunningState}) then
          var next := s.db.tasks[task.id].(progressState := status, progress := content);
          s.(db := Stored(s.db, task.id, next, AgentReported(Progress), status,
                          [ProgressDelivery(task, status, content)]))
        else s
  {
    var task := s.threads[i].task;
    assert s.threads[i := s.threads[i]] == s.threads;
    if InState(s, task.id, {WaitingApproval, QueuedState, RunningState}) {
      WorkEnds(s, Do(i, ReportProgress(status, content)), i,
               Writing(ReportProgress(status, content), s.db.tasks[task.id]));
    }
  }

  /** An event of the execution's own stream takes effect exactly when it is taken. */
  lemma ApplyTakesEffectIff(s: State, i: nat, e: Projection)
    requires Works(s, i)
    ensures var id := s.threads[i].task.id;
      ReadAndStore(s, Do(i, ApplyEvent(e)), i) ==
        if IsTaken(s, id, e) then
          s.(db := Stored(s.db, id, Reported(s.db.tasks[id], e), AgentReported(e.state), e.error, []))
        else s
  {
    var id := s.threads[i].task.id;
    assert s.threads[i := s.threads[i]] == s.threads && s.db.outbox + [] == s.db.outbox;
    if IsTaken(s, id, e) {
      WorkEnds(s, Do(i, ApplyEvent(e)), i, Writing(ApplyEvent(e), s.db.tasks[id]));
    }
  }

  /** A failure is stored over any state but cancelled, and ends the execution either way. */
  lemma FailTakesEffectIff(s: State, i: nat, error: string)
    requires Works(s, i)
    ensures var id := s.threads[i].task.id;
      ReadAndStore(s, Do(i, Fail(error)), i) ==
        if id in s.db.tasks && s.db.tasks[id].state != CancelledState then
          PhaseSet(s, i, Stored(s.db, id, s.db.tasks[id].(state := FailedState, error := error), ExecutionFailed,
                                error, []), Ended(Dropped))
        else PhaseSet(s, i, s.db, Ended(Dropped))
  {
    var id := s.threads[i].task.id;
    assert s.db.outbox + [] == s.db.outbox;
    if id in s.db.tasks && s.db.tasks[id].state != CancelledState {
      WorkEnds(s, Do(i, Fail(error)), i, Writing(Fail(error), s.db.tasks[id]));
    }
  }

  /** A result is stored over any state but cancelled, and delivered with it; the execution is then complete. */
  lemma FinishTakesEffectIff(s: State, i: nat, result: string)
    requires Works(s, i)
    ensures var task := s.threads[i].task;
      ReadAndStore(s, Do(i, Finish(result)), i) ==
        if task.id in s.db.tasks && s.db.tasks[task.id].state != CancelledState then
          var next := s.db.tasks[task.id].(state := FinalState, result := result);
          PhaseSet(s, i, Stored(s.db, task.id, next, Finished, "", [FinalDelivery(task, result)]), Ended(Completed))
        else PhaseSet(s, i, s.db, Ended(Dropped))
  {
    var task := s.threads[i].task;
    if task.id in s.db.tasks && s.db.tasks[task.id].state != CancelledState {
      WorkEnds(s, Do(i, Finish(result)), i, Writing(Finish(result), s.db.tasks[task.id]));
    }
  }
}
