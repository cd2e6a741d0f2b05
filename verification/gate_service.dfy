/**
 GateCore's repository and handlers as they run.

 A handler takes, besides its request, what the world does to it: `others` is what the tables hold when
 its transaction begins (other handlers may have committed since it read), and `fault` is the statement
 of that transaction that fails, if any.
 */
module GateService {
  import opened Sequences
  import opened Text
  import opened TaskEvents
  import opened GateModel
  import C = GateContexts

  datatype Fault = NoFault | OnBegin | OnRead | OnUpdate | OnAudit | OnEnqueue | OnCommit

  datatype Verdict = Skipped | Errored | Lost | Applied

  /** Whether the transaction of w reaches the failing statement. */
  predicate Fails(fault: Fault, db: Database, w: Write)
  {
    match fault
    case NoFault => false
    case OnBegin => true
    case OnRead => true
    case OnEnqueue => Applies(db, w) && w.delivery.Some?
    case _ => Applies(db, w)
  }

  /** The outcome of planning over `before` and storing over `others`. */
  function Attempted(before: Database, others: Database, fault: Fault, plan: Option<Write>): (Database, Verdict)
  {
    match plan
    case None => (before, Skipped)
    case Some(w) =>
      if Fails(fault, others, w) then (others, Errored)
      else (Commit(others, w), if Applies(others, w) then Applied else Lost)
  }

  /** Every task in one of the states, once, with its record. */
  ghost predicate IsListing(tasks: map<TaskID, TaskRecord>, states: set<TaskState>, entries: seq<(TaskID, TaskRecord)>)
  {
    && (forall e <- entries :: e.0 in tasks && e.1 == tasks[e.0] && e.1.state in states)
    && (forall id <- tasks :: tasks[id].state in states ==> (id, tasks[id]) in entries)
    && (forall i, j :: 0 <= i < j < |entries| ==> entries[i].0 != entries[j].0)
  }

  class TaskRepository {
    var tasks: map<TaskID, TaskRecord>
    var audit: seq<AuditRow>
    var outbox: seq<OutboxRow>

    function Contents(): Database
      reads this
    {
      Database(tasks, audit, outbox)
    }

    /** A repository over the tables its database holds. */
    constructor (db: Database)
      ensures Contents() == db
    {
      tasks, audit, outbox := db.tasks, db.audit, db.outbox;
    }

    /** Whatever other handlers commit in the meantime. */
    method Interleave(others: Database)
      modifies this
      ensures Contents() == others
    {
      tasks, audit, outbox := others.tasks, others.audit, others.outbox;
    }

    method Rollback(saved: Database)
      modifies this
      ensures Contents() == saved
    {
      tasks, audit, outbox := saved.tasks, saved.audit, saved.outbox;
    }

    method Get(id: TaskID) returns (record: Option<TaskRecord>)
      ensures record == if id in tasks then Some(tasks[id]) else None
    {
      record := if id in tasks then Some(tasks[id]) else None;
    }

    method CreateWithAudit(id: TaskID, record: TaskRecord, row: AuditRow, fault: Fault) returns (ok: bool)
      modifies this
      ensures ok <==> id !in old(tasks) && (fault == NoFault || fault == OnRead || fault == OnEnqueue)
      ensures Contents()
              == if ok then Database(old(tasks)[id := record], old(audit) + [row], old(outbox)) else old(Contents())
    {
      var saved := Contents();
      if fault == OnBegin || fault == OnUpdate || id in tasks {
        return false;
      }
      tasks := tasks[id := record];
      if fault == OnAudit {
        Rollback(saved);
        return false;
      }
      audit := audit + [row];
      if fault == OnCommit {
        Rollback(saved);
        return false;
      }
      return true;
    }

    /** One transaction: check the state, write the row, append the audit row, enqueue the delivery. */
    method TransitionWithAudit(id: TaskID, expected: TaskState, record: TaskRecord, row: AuditRow,
                               delivery: Option<OutboxRow>, fault: Fault)
      returns (verdict: Verdict)
      modifies this
      ensures var w := Write(id, expected, record, row, delivery);
        (Contents(), verdict) == Attempted(old(Contents()), old(Contents()), fault, Some(w))
    {
      var saved := Contents();
      if fault == OnBegin || fault == OnRead {
        return Errored;
      }
      if id !in tasks {
        return Lost;
      }
      if tasks[id].state != expected {
        return Lost;
      }
      if fault == OnUpdate {
        return Errored;
      }
      tasks := tasks[id := record];
      if fault == OnAudit {
        Rollback(saved);
        return Errored;
      }
      audit := audit + [row];
      if delivery.Some? {
        if fault == OnEnqueue {
          Rollback(saved);
          return Errored;
        }
        outbox := outbox + [delivery.value];
      }
      if fault == OnCommit {
        Rollback(saved);
        return Errored;
      }
      return Applied;
    }

    method ListByState(states: set<TaskState>) returns (entries: seq<(TaskID, TaskRecord)>)
      ensures IsListing(tasks, states, entries)
    {
      entries := [];
      var remaining := tasks.Keys;
      while remaining != {}
        invariant remaining <= tasks.Keys
        invariant forall e <- entries :: e.0 in tasks && e.0 !in remaining && e.1 == tasks[e.0] && e.1.state in states
        invariant forall id <- tasks :: id !in remaining && tasks[id].state in states ==> (id, tasks[id]) in entries
        invariant forall i, j :: 0 <= i < j < |entries| ==> entries[i].0 != entries[j].0
        decreases |remaining|
      {
        var id :| id in remaining;
        remaining := remaining - {id};
        if tasks[id].state in states {
          assert forall e <- entries :: e.0 != id;
          entries := entries + [(id, tasks[id])];
        }
      }
    }
  }

  datatype Reply =
    | InvalidRequest
    | TaskNotFound
    | StoreFailure
    | Response(accepted: bool, state: TaskState)

  datatype ProjectReply =
    | InvalidProjection
    | UnknownTask
    | ProjectionFailure
    | Duplicate(state: TaskState, sequence: int)
    | Refused(state: TaskState, sequence: int)
    | Unsupported(state: TaskState, sequence: int)
    | Overtaken(state: TaskState, sequence: int)
    | ProjectedReply(state: TaskState, sequence: int)

  /** The write a call plans over the tables it reads. */
  function CallPlan(db: Database, id: TaskID, call: Call): Option<Write>
  {
    if id in db.tasks then PlanCall(id, call, db.tasks[id]) else None
  }

  function WorkPlan(db: Database, task: Task, work: Work): Option<Write>
  {
    if task.id in db.tasks then PlanWork(task, work, db.tasks[task.id]) else None
  }

  function StartPlan(db: Database, id: TaskID): Option<Write>
  {
    if id in db.tasks then PlanStart(id, db.tasks[id]) else None
  }

  /** What the caller of an operator endpoint is told. */
  function ReplyFor(db: Database, id: TaskID, call: Call, verdict: Verdict): Reply
  {
    if id !in db.tasks then TaskNotFound
    else match verdict
      case Skipped => Response(false, db.tasks[id].state)
      case Errored => StoreFailure
      case _ =>
        var plan := CallPlan(db, id, call);
        if plan.Some? then Response(verdict == Applied, plan.value.record.state) else StoreFailure
  }

  /** What the projector of an event is told. */
  function ProjectReplyFor(db: Database, id: TaskID, e: Projection, verdict: Verdict): ProjectReply
  {
    if id !in db.tasks then UnknownTask
    else
      var entry := db.tasks[id];
      if IsDuplicate(entry, e) then Duplicate(entry.state, entry.lastSequence)
      else if IsTerminal(entry.state) then Refused(entry.state, entry.lastSequence)
      else match PlanProjection(id, e, entry)
        case None => Unsupported(entry.state, entry.lastSequence)
        case Some(w) =>
          if verdict == Errored then ProjectionFailure
          else if verdict == Lost then Overtaken(w.record.state, e.sequence)
          else ProjectedReply(w.record.state, e.sequence)
  }

  /** A transaction over the tables it finds commits all of its rows over the expected state, and else nothing. */
  lemma TransactionIsAtomic(before: Database, others: Database, fault: Fault, w: Write)
    ensures var (after, verdict) := Attempted(before, others, fault, Some(w));
      var finds := w.id in others.tasks && others.tasks[w.id].state == w.expected;
      && (verdict == Applied <==>
            finds && (fault == NoFault || (fault == OnEnqueue && w.delivery.None?)))
      && (verdict == Lost <==> !finds && fault != OnBegin && fault != OnRead)
      && (verdict != Applied ==> verdict != Skipped && after == others)
      && (verdict == Applied ==>
            after == Database(others.tasks[w.id := w.record], others.audit + [w.row],
                              others.outbox + if w.delivery.Some? then [w.delivery.value] else []))
  {
    assert others.outbox + [] == others.outbox;
  }

  /** The tasks an operator's call may act on. */
  predicate MayAct(r: TaskRecord, call: Call)
  {
    match call
    case Approve(_) => r.requireApproval && r.state == WaitingApproval
    case Resume(_) => r.state == FailedState
    case Cancel(_) => r.state == WaitingApproval || r.state == QueuedState || r.state == RunningState
    case _ => false
  }

  /** What an operator is told: whether the call took effect, and which state the task is, or was to be, in. */
  lemma ReplyTells(db: Database, others: Database, fault: Fault, id: TaskID, call: Call)
    requires call.Approve? || call.Resume? || call.Cancel?
    ensures var (after, verdict) := Attempted(db, others, fault, CallPlan(db, id, call));
      var aim := if call.Cancel? then CancelledState else QueuedState;
      && (verdict == Skipped <==> !(id in db.tasks && MayAct(db.tasks[id], call)))
      && ReplyFor(db, id, call, verdict) ==
         (if id !in db.tasks then TaskNotFound
          else if !MayAct(db.tasks[id], call) then Response(false, db.tasks[id].state)
          else if verdict == Errored then StoreFailure else Response(verdict == Applied, aim))
      && (verdict == Skipped ==> after == db)
      && (verdict == Applied ==> id in after.tasks && after.tasks[id].state == aim)
      && (verdict == Errored || verdict == Lost ==> after == others)
  {
  }

  /** What the projector is told of an event: the state and the cursor it met, or those it left. */
  lemma ProjectReplyTells(db: Database, others: Database, fault: Fault, id: TaskID, e: Projection)
    ensures var (after, verdict) := Attempted(db, others, fault, CallPlan(db, id, Project(e)));
      var reply := ProjectReplyFor(db, id, e, verdict);
      if id !in db.tasks then reply == UnknownTask && after == db
      else
        var r := db.tasks[id];
        if e.sequence <= r.lastSequence || e.eventID == r.lastEventID then
          reply == Duplicate(r.state, r.lastSequence) && after == db
        else if r.state == FinalState || r.state == FailedState || r.state == CancelledState then
          reply == Refused(r.state, r.lastSequence) && after == db
        else if e.state.Other? then reply == Unsupported(r.state, r.lastSequence) && after == db
        else
          var aim := match e.state
            case Running => RunningState
            case Queued => QueuedState
            case Final => FinalState
            case Failed => FailedState
            case _ => r.state;
          && (verdict == Errored ==> reply == ProjectionFailure && after == others)
          && (verdict == Lost ==> reply == Overtaken(aim, e.sequence) && after == others)
          && (verdict == Applied ==> reply == ProjectedReply(aim, e.sequence) && id in after.tasks
                                     && after.tasks[id].state == aim && after.tasks[id].lastSequence == e.sequence)
          && verdict != Skipped
  {
  }

  /** A call that writes nothing: what the handler replies, leaving the tables. */
  lemma CallSkips(db: Database, others: Database, fault: Fault, id: TaskID, call: Call)
    requires CallPlan(db, id, call).None?
    ensures Attempted(db, others, fault, CallPlan(db, id, call)) == (db, Skipped)
    ensures ReplyFor(db, id, call, Skipped)
            == if id !in db.tasks then TaskNotFound else Response(false, db.tasks[id].state)
  {
  }

  /** A call that stores: what the handler replies by outcome, over whatever is stored by then. */
  lemma CallStores(db: Database, others: Database, fault: Fault, id: TaskID, call: Call, w: Write)
    requires CallPlan(db, id, call) == Some(w)
    ensures Attempted(db, others, fault, CallPlan(db, id, call)) == Attempted(others, others, fault, Some(w))
    ensures var verdict := Attempted(others, others, fault, Some(w)).1;
      ReplyFor(db, id, call, verdict) ==
        if verdict == Errored then StoreFailure else Response(verdict == Applied, w.record.state)
  {
  }

  /** A projection that Gate does not take: what the handler replies, leaving the tables. */
  lemma ProjectionSkips(db: Database, others: Database, fault: Fault, id: TaskID, e: Projection)
    requires id in db.tasks ==> PlanProjection(id, e, db.tasks[id]).None?
    ensures Attempted(db, others, fault, CallPlan(db, id, Project(e))) == (db, Skipped)
    ensures ProjectReplyFor(db, id, e, Skipped) ==
      if id !in db.tasks then UnknownTask
      else if IsDuplicate(db.tasks[id], e) then Duplicate(db.tasks[id].state, db.tasks[id].lastSequence)
      else if IsTerminal(db.tasks[id].state) then Refused(db.tasks[id].state, db.tasks[id].lastSequence)
      else Unsupported(db.tasks[id].state, db.tasks[id].lastSequence)
  {
  }

  /** A projection that Gate stores: what the handler replies by outcome, over whatever is stored by then. */
  lemma ProjectionStores(db: Database, others: Database, fault: Fault, id: TaskID, e: Projection, w: Write)
    requires id in db.tasks && PlanProjection(id, e, db.tasks[id]) == Some(w)
    ensures Attempted(db, others, fault, CallPlan(db, id, Project(e))) == Attempted(others, others, fault, Some(w))
    ensures var verdict := Attempted(others, others, fault, Some(w)).1;
      ProjectReplyFor(db, id, e, verdict) ==
        if verdict == Errored then ProjectionFailure
        else if verdict != Applied then Overtaken(w.record.state, e.sequence)
        else ProjectedReply(w.record.state, e.sequence)
  {
  }

  /** The cancel functions after the executions from the n-th on were started, each under its number. */
  function Registered(cancels: map<TaskID, nat>, executions: seq<Task>, n: nat): map<TaskID, nat>
    requires n <= |executions|
    decreases |executions|
  {
    if |executions| == n then cancels
    else
      var k := |executions| - 1;
      Registered(cancels, executions[..k], n)[executions[k].id := k]
  }

  lemma RegisteredNone(cancels: map<TaskID, nat>, executions: seq<Task>)
    ensures Registered(cancels, executions, |executions|) == cancels
  {
  }

  lemma RegisteredNext(cancels: map<TaskID, nat>, before: seq<Task>, n: nat, after: seq<Task>)
    requires n <= |before| && (after == before || (|after| == |before| + 1 && before <= after))
    ensures Registered(cancels, after, n) == if after == before then Registered(cancels, before, n)
                                             else Registered(cancels, before, n)[after[|before|].id := |before|]
  {
    if after != before {
      assert after[..|before|] == before;
    }
  }

  predicate StoreFails(entry: (TaskID, TaskRecord), db: Database, fault: Fault)
  {
    Attempted(db, db, fault, PlanCall(entry.0, Recover, entry.1)).1 == Errored
  }

  lemma ErroredStoreFails(before: Database, entry: (TaskID, TaskRecord), others: Database, fault: Fault)
    requires Attempted(before, others, fault, PlanCall(entry.0, Recover, entry.1)).1 == Errored
    ensures StoreFails(entry, others, fault)
  {
  }

  /** The executions a listing's recoveries start and the tables they leave, the i-th store finding world(i). */
  function Recoveries(db: Database, entries: seq<(TaskID, TaskRecord)>, world: nat -> Database, faults: nat -> Fault)
    : (Database, seq<Task>)
  {
    if entries == [] then (db, [])
    else
      var n := |entries| - 1;
      var (mid, tasks) := Recoveries(db, entries[..n], world, faults);
      var (after, verdict) := Attempted(mid, world(n), faults(n), PlanCall(entries[n].0, Recover, entries[n].1));
      (after,
       if verdict == Applied then tasks + [TaskFor(entries[n].0, entries[n].1.(state := QueuedState))] else tasks)
  }

  /** The recoveries of the first entries have left these tables and started these executions. */
  ghost predicate HasRecovered(before: Database, started: seq<Task>, hasExecutor: bool, db: Database,
                               executions: seq<Task>,
                               entries: seq<(TaskID, TaskRecord)>, world: nat -> Database, faults: nat -> Fault)
  {
    && db == Recoveries(before, entries, world, faults).0
    && executions == if hasExecutor then started + Recoveries(before, entries, world, faults).1 else started
  }

  lemma HasRecoveredNext(before: Database, started: seq<Task>, hasExecutor: bool,
                         db: Database, executions: seq<Task>, dbAfter: Database, executionsAfter: seq<Task>,
                         verdict: Verdict,
                         entries: seq<(TaskID, TaskRecord)>, k: nat, world: nat -> Database, faults: nat -> Fault)
    requires k < |entries| && HasRecovered(before, started, hasExecutor, db, executions, entries[..k], world, faults)
    requires (dbAfter, verdict) == Attempted(db, world(k), faults(k), PlanCall(entries[k].0, Recover, entries[k].1))
    requires executionsAfter == if verdict == Applied && hasExecutor
                                then executions + [TaskFor(entries[k].0, entries[k].1.(state := QueuedState))]
                                else executions
    ensures HasRecovered(before, started, hasExecutor, dbAfter, executionsAfter, entries[..k + 1], world, faults)
  {
    NextRecovery(before, entries, k, world, faults);
    hide Attempted;
    hide PlanCall;
    hide Recoveries;
  }

  lemma NextRecovery(db: Database, entries: seq<(TaskID, TaskRecord)>, k: nat, world: nat -> Database,
                     faults: nat -> Fault)
    requires k < |entries|
    ensures var (mid, tasks) := Recoveries(db, entries[..k], world, faults);
      var (after, verdict) := Attempted(mid, world(k), faults(k), PlanCall(entries[k].0, Recover, entries[k].1));
      Recoveries(db, entries[..k + 1], world, faults) ==
      (after,
       if verdict == Applied then tasks + [TaskFor(entries[k].0, entries[k].1.(state := QueuedState))] else tasks)
  {
    assert entries[..k + 1][..k] == entries[..k];
  }

  class Service {
    const repo: TaskRepository
    var hasExecutor: bool
    var executions: seq<Task>          // every execution started, in order
    var cancels: map<TaskID, nat>      // the execution whose context a cancellation ends
    var cancelled: set<nat>            // executions whose context was ended

    function Contexts(): C.Contexts
      reads this
    {
      C.Contexts(executions, cancels, cancelled)
    }

    constructor (repo: TaskRepository)
      ensures this.repo == repo && !hasExecutor && Contexts() == C.NONE
    {
      this.repo := repo;
      hasExecutor, executions, cancels, cancelled := false, [], map[], {};
    }

    method SetExecutor(present: bool)
      modifies this`hasExecutor
      ensures hasExecutor == present
    {
      hasExecutor := present;
    }

    method StartExecution(id: TaskID, entry: TaskRecord)
      modifies this`executions, this`cancels
      ensures executions == if hasExecutor then old(executions) + [TaskFor(id, entry)] else old(executions)
      ensures cancels == if hasExecutor then old(cancels)[id := |old(executions)|] else old(cancels)
      ensures hasExecutor ==> Contexts() == C.Step(old(Contexts()), C.Launch(TaskFor(id, entry)))
    {
      if hasExecutor {
        cancels := cancels[id := |executions|];
        executions := executions + [TaskFor(id, entry)];
      }
    }

    /** Deferred to the end of an execution: forgets the task's cancel function, whichever execution registered it. */
    method EndRegistration(id: TaskID)
      modifies this`cancels
      ensures cancels == old(cancels) - {id}
      ensures forall k :: 0 <= k < |executions| && executions[k].id == id ==>
        Contexts() == C.Step(old(Contexts()), C.Return(k))
    {
      cancels := cancels - {id};
    }

    /** Creates the task once; an id that exists is acknowledged with its current state. */
    method Accept(id: TaskID, d: Dispatch, fault: Fault) returns (ok: bool, state: TaskState)
      modifies this`executions, this`cancels, repo
      ensures id in old(repo.tasks) ==>
        ok && state == old(repo.tasks)[id].state && repo.Contents() == old(repo.Contents())
      ensures id !in old(repo.tasks) ==>
        && (ok <==> fault == NoFault || fault == OnRead || fault == OnEnqueue)
        && repo.Contents() == (if ok then Create(old(repo.Contents()), id, NewRecord(d)) else old(repo.Contents()))
        && state == (if ok then NewRecord(d).state else FailedState)
      ensures executions == if id !in old(repo.tasks) && ok && state == QueuedState && hasExecutor
                            then old(executions) + [TaskFor(id, NewRecord(d))] else old(executions)
      ensures cancels == if executions == old(executions) then old(cancels) else old(cancels)[id := |old(executions)|]
    {
      var entry := repo.Get(id);
      if entry.Some? {
        return true, entry.value.state;
      }
      var initial := if d.options.requireApproval then WaitingApproval else QueuedState;
      var record := TaskRecord(d.channelID, d.targetID, d.content, d.metadata, "", "", "", "", initial, 0, "",
                               0, d.options.maxAttempts, d.options.maxWallTimeMS, d.options.requireApproval, false);
      ok := repo.CreateWithAudit(id, record, AuditRow(id, Created, None, initial, ""), fault);
      if !ok {
        return false, FailedState;
      }
      if initial == QueuedState {
        StartExecution(id, record);
      }
      state := initial;
    }

    method ApproveTask(id: TaskID, reason: string, others: Database, fault: Fault) returns (reply: Reply)
      modifies this`executions, this`cancels, repo
      ensures IsBlank(id) ==>
        reply == InvalidRequest && repo.Contents() == old(repo.Contents()) && executions == old(executions)
      ensures !IsBlank(id) ==>
        var plan := CallPlan(old(repo.Contents()), id, Approve(reason));
        var (db, verdict) := Attempted(old(repo.Contents()), others, fault, plan);
        && repo.Contents() == db
        && reply == ReplyFor(old(repo.Contents()), id, Approve(reason), verdict)
        && executions == (if verdict == Applied && hasExecutor
                          then old(executions) + [TaskFor(id, plan.value.record)] else old(executions))
      ensures cancels == if executions == old(executions) then old(cancels) else old(cancels)[id := |old(executions)|]
    {
      if IsBlank(id) {
        return InvalidRequest;
      }
      hide Attempted;
      hide ReplyFor;
      ghost var db := repo.Contents();
      var found := repo.Get(id);
      if found.None? {
        CallSkips(db, others, fault, id, Approve(reason));
        return TaskNotFound;
      }
      var entry := found.value;
      if !entry.requireApproval || entry.state != WaitingApproval {
        CallSkips(db, others, fault, id, Approve(reason));
        return Response(false, entry.state);
      }
      entry := entry.(approvalGranted := true, state := QueuedState);
      ghost var w := Write(id, WaitingApproval, entry,
                           AuditRow(id, Approved, Some(WaitingApproval), QueuedState, reason), None);
      CallStores(db, others, fault, id, Approve(reason), w);
      repo.Interleave(others);
      var verdict := repo.TransitionWithAudit(
        id, WaitingApproval, entry, AuditRow(id, Approved, Some(WaitingApproval), QueuedState, reason), None, fault);
      if verdict == Errored {
        return StoreFailure;
      }
      if verdict != Applied {
        return Response(false, entry.state);
      }
      StartExecution(id, entry);
      reply := Response(true, QueuedState);
    }

    method ResumeTask(id: TaskID, reason: string, others: Database, fault: Fault) returns (reply: Reply)
      modifies this`executions, this`cancels, repo
      ensures IsBlank(id) ==>
        reply == InvalidRequest && repo.Contents() == old(repo.Contents()) && executions == old(executions)
      ensures !IsBlank(id) ==>
        var plan := CallPlan(old(repo.Contents()), id, Resume(reason));
        var (db, verdict) := Attempted(old(repo.Contents()), others, fault, plan);
        && repo.Contents() == db
        && reply == ReplyFor(old(repo.Contents()), id, Resume(reason), verdict)
        && executions == (if verdict == Applied && hasExecutor
                          then old(executions) + [TaskFor(id, plan.value.record)] else old(executions))
      ensures cancels == if executions == old(executions) then old(cancels) else old(cancels)[id := |old(executions)|]
    {
      if IsBlank(id) {
        return InvalidRequest;
      }
      hide Attempted;
      hide ReplyFor;
      ghost var db := repo.Contents();
      var found := repo.Get(id);
      if found.None? {
        CallSkips(db, others, fault, id, Resume(reason));
        return TaskNotFound;
      }
      var entry := found.value;
      if entry.state != FailedState {
        CallSkips(db, others, fault, id, Resume(reason));
        return Response(false, entry.state);
      }
      entry := entry.(state := QueuedState, error := "");
      ghost var w := Write(id, FailedState, entry, AuditRow(id, Resumed, Some(FailedState), QueuedState, reason), None);
      CallStores(db, others, fault, id, Resume(reason), w);
      repo.Interleave(others);
      var verdict := repo.TransitionWithAudit(
        id, FailedState, entry, AuditRow(id, Resumed, Some(FailedState), QueuedState, reason), None, fault);
      if verdict == Errored {
        return StoreFailure;
      }
      if verdict != Applied {
        return Response(false, entry.state);
      }
      StartExecution(id, entry);
      reply := Response(true, QueuedState);
    }

    /** A cancellation that commits also ends the context of the execution registered for the task. */
    method CancelTask(id: TaskID, reason: string, others: Database, fault: Fault) returns (reply: Reply)
      modifies this`cancels, this`cancelled, repo
      ensures IsBlank(id) ==>
        reply == InvalidRequest && repo.Contents() == old(repo.Contents()) && cancelled == old(cancelled)
      ensures !IsBlank(id) ==>
        var plan := CallPlan(old(repo.Contents()), id, Cancel(reason));
        var (db, verdict) := Attempted(old(repo.Contents()), others, fault, plan);
        && repo.Contents() == db
        && reply == ReplyFor(old(repo.Contents()), id, Cancel(reason), verdict)
        && cancelled
           == (if verdict == Applied && id in old(cancels) then old(cancelled) + {old(cancels)[id]} else old(cancelled))
        && cancels == (if verdict == Applied then old(cancels) - {id} else old(cancels))
    {
      if IsBlank(id) {
        return InvalidRequest;
      }
      hide Attempted;
      hide ReplyFor;
      ghost var db := repo.Contents();
      var found := repo.Get(id);
      if found.None? {
        CallSkips(db, others, fault, id, Cancel(reason));
        return TaskNotFound;
      }
      var entry := found.value;
      if entry.state == FinalState || entry.state == FailedState || entry.state == CancelledState {
        CallSkips(db, others, fault, id, Cancel(reason));
        return Response(false, entry.state);
      }
      var expected := entry.state;
      var error := CancelReason(reason);
      entry := entry.(state := CancelledState, error := error);
      ghost var w := Write(id, expected, entry, AuditRow(id, Cancelled, Some(expected), CancelledState, error), None);
      CallStores(db, others, fault, id, Cancel(reason), w);
      hide CallPlan;
      repo.Interleave(others);
      var verdict := repo.TransitionWithAudit(
        id, expected, entry, AuditRow(id, Cancelled, Some(expected), CancelledState, error), None, fault);
      if verdict == Errored {
        return StoreFailure;
      }
      if verdict != Applied {
        return Response(false, entry.state);
      }
      EndContext(id);
      reply := Response(true, CancelledState);
    }

    method EndContext(id: TaskID)
      modifies this`cancels, this`cancelled
      ensures cancelled == if id in old(cancels) then old(cancelled) + {old(cancels)[id]} else old(cancelled)
      ensures cancels == old(cancels) - {id}
      ensures Contexts() == C.Step(old(Contexts()), C.Revoke(id))
    {
      if id in cancels {
        cancelled := cancelled + {cancels[id]};
        cancels := cancels - {id};
      }
    }

    /** Requeues every listed task that may run; stops at the first store that fails. */
    method RecoverPending(world: nat -> Database, faults: nat -> Fault)
      returns (entries: seq<(TaskID, TaskRecord)>, handled: nat)
      modifies this`executions, this`cancels, repo
      ensures IsListing(old(repo.tasks), {QueuedState, RunningState}, entries)
      ensures handled <= |entries|
      ensures repo.Contents() == Recoveries(old(repo.Contents()), entries[..handled], world, faults).0
      ensures executions == if hasExecutor
                            then old(executions) + Recoveries(old(repo.Contents()), entries[..handled], world, faults).1
                            else old(executions)
      ensures cancels == Registered(old(cancels), executions, |old(executions)|)
      ensures handled < |entries| ==>
        handled > 0 && StoreFails(entries[handled - 1], world(handled - 1), faults(handled - 1))
    {
      hide PlanCall;
      hide Attempted;
      hide StoreFails;
      hide Registered;
      RegisteredNone(cancels, executions);
      entries := repo.ListByState({QueuedState, RunningState});
      handled := 0;
      ghost var before, started := repo.Contents(), executions;
      assert started + [] == started;
      while handled < |entries|
        invariant handled <= |entries|
        invariant HasRecovered(before, started, hasExecutor, repo.Contents(), executions, entries[..handled], world,
                               faults)
        invariant started <= executions && cancels == Registered(old(cancels), executions, |started|)
      {
        hide HasRecovered;
        ghost var db, running := repo.Contents(), executions;
        var verdict := RecoverEntry(entries[handled].0, entries[handled].1, world(handled), faults(handled));
        HasRecoveredNext(before, started, hasExecutor, db, running, repo.Contents(), executions, verdict, entries,
                         handled, world, faults);
        RegisteredNext(old(cancels), running, |started|, executions);
        handled := handled + 1;
        if verdict == Errored {
          ErroredStoreFails(db, entries[handled - 1], world(handled - 1), faults(handled - 1));
          break;
        }
      }
    }

    /** Requeues one listed task from the record the listing returned. */
    method RecoverEntry(id: TaskID, listed: TaskRecord, others: Database, fault: Fault) returns (verdict: Verdict)
      requires listed.state == QueuedState || listed.state == RunningState
      modifies this`executions, this`cancels, repo
      ensures (repo.Contents(), verdict)
              == Attempted(old(repo.Contents()), others, fault, PlanCall(id, Recover, listed))
      ensures executions == if verdict == Applied && hasExecutor
                            then old(executions) + [TaskFor(id, listed.(state := QueuedState))] else old(executions)
      ensures cancels == if executions == old(executions) then old(cancels) else old(cancels)[id := |old(executions)|]
    {
      if listed.requireApproval && !listed.approvalGranted {
        return Skipped;
      }
      var previous := listed.state;
      var entry := listed.(state := QueuedState);
      repo.Interleave(others);
      verdict := repo.TransitionWithAudit(
        id, previous, entry,
        AuditRow(id, Recovered, Some(previous), QueuedState, "process startup recovery"), None, fault);
      if verdict == Applied {
        StartExecution(id, entry);
      }
    }

    method ProjectTaskEvent(id: TaskID, e: Projection, others: Database, fault: Fault) returns (reply: ProjectReply)
      modifies repo
      ensures IsBlank(id) || IsBlank(e.eventID) || e.sequence <= 0 ==>
        reply == InvalidProjection && repo.Contents() == old(repo.Contents())
      ensures !(IsBlank(id) || IsBlank(e.eventID) || e.sequence <= 0) ==>
        var plan := CallPlan(old(repo.Contents()), id, Project(e));
        var (db, verdict) := Attempted(old(repo.Contents()), others, fault, plan);
        repo.Contents() == db && reply == ProjectReplyFor(old(repo.Contents()), id, e, verdict)
    {
      if IsBlank(id) || IsBlank(e.eventID) || e.sequence <= 0 {
        return InvalidProjection;
      }
      hide Attempted;
      hide CallPlan;
      hide ProjectReplyFor;
      ghost var db := repo.Contents();
      var found := repo.Get(id);
      if found.None? {
        ProjectionSkips(db, others, fault, id, e);
        return UnknownTask;
      }
      var record := found.value;
      if e.sequence <= record.lastSequence || e.eventID == record.lastEventID {
        ProjectionSkips(db, others, fault, id, e);
        return Duplicate(record.state, record.lastSequence);
      }
      if record.state == FinalState || record.state == FailedState || record.state == CancelledState {
        ProjectionSkips(db, others, fault, id, e);
        return Refused(record.state, record.lastSequence);
      }
      var expected := record.state;
      match e.state {
        case Running => record := record.(state := RunningState);
        case Queued => record := record.(state := QueuedState);
        case Progress => record := record.(progressState := e.progressState, progress := e.progressContent);
        case Final => record := record.(state := FinalState, result := e.content);
        case Failed => record := record.(state := FailedState, error := e.error);
        case Other(_) =>
          ProjectionSkips(db, others, fault, id, e);
          return Unsupported(record.state, record.lastSequence);
      }
      record := record.(lastSequence := e.sequence, lastEventID := e.eventID);
      ghost var w := Write(id, expected, record,
                           AuditRow(id, AgentReported(e.state), Some(expected), record.state, e.error), None);
      assert PlanProjection(id, e, found.value) == Some(w);
      hide PlanProjection;
      ProjectionStores(db, others, fault, id, e, w);
      repo.Interleave(others);
      var verdict := repo.TransitionWithAudit(
        id, expected, record, AuditRow(id, AgentReported(e.state), Some(expected), record.state, e.error), None, fault);
      if verdict == Errored {
        return ProjectionFailure;
      }
      if verdict != Applied {
        return Overtaken(record.state, record.lastSequence);
      }
      reply := ProjectedReply(record.state, record.lastSequence);
    }

    /** The first half of execute: take the queued task, within its attempt budget. */
    method BeginExecution(id: TaskID, others: Database, fault: Fault) returns (started: bool)
      modifies repo
      ensures var plan := StartPlan(old(repo.Contents()), id);
        var (db, verdict) := Attempted(old(repo.Contents()), others, fault, plan);
        && repo.Contents() == db
        && (started <==> verdict == Applied && plan.value.row.action == Started)
    {
      var found := repo.Get(id);
      if found.None? || found.value.state != QueuedState {
        return false;
      }
      var current := found.value.(state := RunningState, attempt := found.value.attempt + 1);
      repo.Interleave(others);
      if current.maxAttempts > 0 && current.attempt > current.maxAttempts {
        current := current.(state := FailedState, error := "maximum attempts exceeded");
        var _ := repo.TransitionWithAudit(
          id, QueuedState, current,
          AuditRow(id, ExecutionFailed, Some(QueuedState), FailedState, current.error), None, fault);
        return false;
      }
      var verdict := repo.TransitionWithAudit(
        id, QueuedState, current, AuditRow(id, Started, Some(QueuedState), RunningState, ""), None, fault);
      started := verdict == Applied;
    }

    method PersistProgress(task: Task, state: string, content: string, others: Database, fault: Fault)
      returns (ok: bool)
      modifies repo
      ensures var plan := WorkPlan(old(repo.Contents()), task, ReportProgress(state, content));
        var (db, verdict) := Attempted(old(repo.Contents()), others, fault, plan);
        repo.Contents() == db && (ok <==> verdict != Errored)
    {
      var found := repo.Get(task.id);
      if found.None? || found.value.state == FinalState || found.value.state == FailedState
        || found.value.state == CancelledState {
        return true;
      }
      var record := found.value.(progressState := state, progress := content);
      repo.Interleave(others);
      var verdict := repo.TransitionWithAudit(
        task.id, record.state, record,
        AuditRow(task.id, AgentReported(Progress), Some(record.state), record.state, state),
        Some(ProgressDelivery(task, state, content)), fault);
      ok := verdict != Errored;
    }

    /** The second half of execute: store what the executor returned. */
    method EndExecution(task: Task, result: Option<string>, error: string, others: Database, fault: Fault)
      modifies repo
      ensures var work := if result.Some? then Finish(result.value) else Fail(error);
        repo.Contents() == Attempted(old(repo.Contents()), others, fault, WorkPlan(old(repo.Contents()), task, work)).0
    {
      var found := repo.Get(task.id);
      if found.None? || found.value.state == CancelledState {
        return;
      }
      var current := found.value;
      var expected := current.state;
      repo.Interleave(others);
      if result.None? {
        current := current.(state := FailedState, error := error);
        var _ := repo.TransitionWithAudit(
          task.id, expected, current,
          AuditRow(task.id, ExecutionFailed, Some(expected), FailedState, error), None, fault);
      } else {
        current := current.(state := FinalState, result := result.value);
        var _ := repo.TransitionWithAudit(
          task.id, expected, current, AuditRow(task.id, Finished, Some(expected), FinalState, ""),
          Some(FinalDelivery(task, result.value)), fault);
      }
    }
  }
}
