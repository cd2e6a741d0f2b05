/** Whole-run guarantees of GateCore that hold however stale a committing snapshot is. */
module GateSafety {
  import opened Sequences
  import opened GateModel
  import opened GateMachine

  // ---- The audit trail is the path the stored state took ----

  function OfTask(id: TaskID): AuditRow -> bool
  {
    (row: AuditRow) => row.taskID == id
  }

  function Trail(db: Database, id: TaskID): seq<AuditRow>
  {
    Filter(db.audit, OfTask(id))
  }

  predicate IsPath(rows: seq<AuditRow>)
  {
    && (rows != [] ==> rows[0].from == None)
    && forall i :: 0 < i < |rows| ==> rows[i].from == Some(rows[i - 1].to)
  }

  /** The rows of id start from nothing, chain, and end in the stored state. */
  predicate TrailMatches(db: Database, id: TaskID)
  {
    var rows := Trail(db, id);
    && IsPath(rows)
    && (id in db.tasks <==> rows != [])
    && (id in db.tasks ==> rows[|rows| - 1].to == db.tasks[id].state)
  }

  lemma CommitKeepsTrail(db: Database, w: Write, id: TaskID)
    requires TrailMatches(db, id)
    requires w.row.taskID == w.id && w.row.from == Some(w.expected) && w.row.to == w.record.state
    ensures TrailMatches(Commit(db, w), id)
  {
    FilterAppend(db.audit, w.row, OfTask(id));
  }

  lemma CreateKeepsTrail(db: Database, newID: TaskID, record: TaskRecord, id: TaskID)
    requires TrailMatches(db, id) && TrailMatches(db, newID)
    ensures TrailMatches(Create(db, newID, record), id)
  {
    FilterAppend(db.audit, AuditRow(newID, Created, None, record.state, ""), OfTask(id));
  }

  lemma {:induction false} AuditTrailIsPath(actions: seq<Action>, id: TaskID)
    ensures TrailMatches(Run(INITIAL, actions).db, id)
  {
    if actions != [] {
      var a := actions[|actions| - 1];
      var s := Run(INITIAL, actions[..|actions| - 1]);
      AuditTrailIsPath(actions[..|actions| - 1], id);
      if a.Accept? {
        AuditTrailIsPath(actions[..|actions| - 1], a.id);
        CreateKeepsTrail(s.db, a.id, NewRecord(a.dispatch), id);
      } else if a.Store? && a.thread < |s.threads| && WriteOf(s.threads[a.thread]).Some? {
        WriteShape(s.threads[a.thread]);
        CommitKeepsTrail(s.db, WriteOf(s.threads[a.thread]).value, id);
      }
    }
  }

  // ---- Absorption ----

  function DeliveryFor(id: TaskID): OutboxRow -> bool
  {
    (row: OutboxRow) => row.task.id == id
  }

  /** Neither the record of id nor its trail nor its deliveries differ between the two databases. */
  predicate Untouched(before: Database, after: Database, id: TaskID)
  {
    && id in before.tasks && id in after.tasks && before.tasks[id] == after.tasks[id]
    && Trail(before, id) == Trail(after, id)
    && Filter(before.outbox, DeliveryFor(id)) == Filter(after.outbox, DeliveryFor(id))
  }

  /** Only a transaction whose compare-and-set succeeds on id touches id. */
  lemma CommitTouches(db: Database, w: Write, id: TaskID)
    requires id in db.tasks
    requires w.row.taskID == w.id && (w.delivery.Some? ==> w.delivery.value.task.id == w.id)
    requires w.id == id ==> w.expected != db.tasks[id].state
    ensures Untouched(db, Commit(db, w), id)
  {
    FilterAppend(db.audit, w.row, OfTask(id));
    if w.delivery.Some? {
      FilterAppend(db.outbox, w.delivery.value, DeliveryFor(id));
    }
  }

  /** A task is touched only by a store whose thread expects the state it is in. */
  lemma StepTouches(s: State, a: Action, id: TaskID)
    requires id in s.db.tasks
    requires a.Store? && a.thread < |s.threads| && WriteOf(s.threads[a.thread]).Some?
             && WriteOf(s.threads[a.thread]).value.id == id
             ==> WriteOf(s.threads[a.thread]).value.expected != s.db.tasks[id].state
    ensures Untouched(s.db, Step(s, a).db, id)
  {
    if a.Accept? {
      if a.id !in s.db.tasks {
        FilterAppend(s.db.audit, AuditRow(a.id, Created, None, NewRecord(a.dispatch).state, ""), OfTask(id));
      }
    } else if a.Store? && a.thread < |s.threads| && WriteOf(s.threads[a.thread]).Some? {
      WriteShape(s.threads[a.thread]);
      CommitTouches(s.db, WriteOf(s.threads[a.thread]).value, id);
    }
  }

  /** Once cancelled, a task's record, trail and deliveries never change again. */
  lemma {:induction false} CancelledIsAbsorbing(s: State, actions: seq<Action>, id: TaskID)
    requires id in s.db.tasks && s.db.tasks[id].state == CancelledState
    ensures Untouched(s.db, Run(s, actions).db, id)
  {
    if actions != [] {
      var n := |actions| - 1;
      CancelledIsAbsorbing(s, actions[..n], id);
      var mid := Run(s, actions[..n]);
      if actions[n].Store? && actions[n].thread < |mid.threads| && WriteOf(mid.threads[actions[n].thread]).Some? {
        WriteShape(mid.threads[actions[n].thread]);
      }
      StepTouches(mid, actions[n], id);
    }
  }

  /** The thread committed "started" for id and has not ended. */
  predicate InFlight(t: Thread, id: TaskID)
  {
    t.Execution? && t.task.id == id && (t.phase.Working? || t.phase.Writing?)
  }

  predicate NoneInFlight(s: State, id: TaskID)
  {
    forall t <- s.threads :: !InFlight(t, id)
  }

  lemma FinalStaysQuiet(s: State, a: Action, id: TaskID)
    requires id in s.db.tasks && s.db.tasks[id].state == FinalState && NoneInFlight(s, id)
    ensures Untouched(s.db, Step(s, a).db, id) && NoneInFlight(Step(s, a), id)
  {
    hide PlanStart;
    hide PlanWork;
    hide PlanCall;
    if a.Store? && a.thread < |s.threads| && WriteOf(s.threads[a.thread]).Some? {
      var t := s.threads[a.thread];
      WriteShape(t);
      assert t in s.threads;
      assert !InFlight(Settle(t, Applies(s.db, WriteOf(t).value)), id);
    }
    StepTouches(s, a, id);
    forall u <- Step(s, a).threads ensures !InFlight(u, id) {
      var j :| 0 <= j < |Step(s, a).threads| && Step(s, a).threads[j] == u;
      assert j < |s.threads| ==> s.threads[j] in s.threads;
    }
  }

  /** A final task with no started execution in flight never changes again. */
  lemma {:induction false} FinalIsAbsorbing(s: State, actions: seq<Action>, id: TaskID)
    requires id in s.db.tasks && s.db.tasks[id].state == FinalState && NoneInFlight(s, id)
    ensures Untouched(s.db, Run(s, actions).db, id) && NoneInFlight(Run(s, actions), id)
  {
    if actions != [] {
      var n := |actions| - 1;
      FinalIsAbsorbing(s, actions[..n], id);
      FinalStaysQuiet(Run(s, actions[..n]), actions[n], id);
    }
  }

  /** One step takes a task out of final exactly when it stores an execution failure computed from the final record. */
  lemma LeavingFinal(s: State, a: Action, id: TaskID)
    requires id in s.db.tasks && s.db.tasks[id].state == FinalState
    ensures Step(s, a).db.tasks[id].state != FinalState
            <==> && a.Store? && a.thread < |s.threads|
                 && s.threads[a.thread].Execution? && s.threads[a.thread].task.id == id
                 && s.threads[a.thread].phase.Writing? && s.threads[a.thread].phase.work.Fail?
                 && s.threads[a.thread].phase.snapshot.state == FinalState
  {
    if a.Store? && a.thread < |s.threads| && WriteOf(s.threads[a.thread]).Some? {
      WriteShape(s.threads[a.thread]);
    }
  }

  // ---- Delivery conservation ----

  function RowOf(id: TaskID, action: AuditAction): AuditRow -> bool
  {
    (row: AuditRow) => row.taskID == id && row.action == action
  }

  function FinalFor(id: TaskID): OutboxRow -> bool
  {
    (row: OutboxRow) => row.FinalDelivery? && row.task.id == id
  }

  function StartedThread(id: TaskID): Thread -> bool
  {
    (t: Thread) => t.Execution? && t.task.id == id
      && (t.phase.Working? || t.phase.Writing? || t.phase == Ended(Completed) || t.phase == Ended(Dropped))
  }

  function InFlightThread(id: TaskID): Thread -> bool
  {
    (t: Thread) => InFlight(t, id)
  }

  function EndedThread(id: TaskID, outcome: Outcome): Thread -> bool
  {
    (t: Thread) => t.Execution? && t.task.id == id && t.phase == Ended(outcome)
  }

  function Finals(s: State, id: TaskID): nat
  {
    CountIf(s.db.outbox, FinalFor(id))
  }

  function Rows(s: State, id: TaskID, action: AuditAction): nat
  {
    CountIf(s.db.audit, RowOf(id, action))
  }

  /** Final deliveries, "finished" rows and completed executions agree; so do "started" rows and started executions. */
  predicate Balanced(s: State, id: TaskID)
  {
    && Finals(s, id) == Rows(s, id, Finished)
    && Rows(s, id, Finished) == CountIf(s.threads, EndedThread(id, Completed))
    && Rows(s, id, Started) == CountIf(s.threads, StartedThread(id))
  }

  /** At most one execution that has read nothing. */
  predicate FreshSpawn(spawned: seq<Thread>)
  {
    |spawned| <= 1 && forall u <- spawned :: u.Execution? && u.phase.Spawned?
  }

  /** Changing one thread moves each count by what that thread contributes. */
  lemma ThreadCounts(threads: seq<Thread>, i: nat, t: Thread, spawned: seq<Thread>, id: TaskID)
    requires i < |threads|
    requires FreshSpawn(spawned)
    ensures var after := threads[i := t] + spawned;
      && CountIf(after, EndedThread(id, Completed)) + (if EndedThread(id, Completed)(threads[i]) then 1 else 0)
         == CountIf(threads, EndedThread(id, Completed)) + (if EndedThread(id, Completed)(t) then 1 else 0)
      && CountIf(after, StartedThread(id)) + (if StartedThread(id)(threads[i]) then 1 else 0)
         == CountIf(threads, StartedThread(id)) + (if StartedThread(id)(t) then 1 else 0)
  {
    CountUpdate(threads, i, t, EndedThread(id, Completed));
    CountUpdate(threads, i, t, StartedThread(id));
    var updated := threads[i := t];
    if spawned == [] {
      assert updated + spawned == updated;
    } else {
      assert spawned == [spawned[0]];
      CountAppend(updated, spawned[0], EndedThread(id, Completed));
      CountAppend(updated, spawned[0], StartedThread(id));
    }
  }

  /** What a store changes for a thread's own counts is what its row records. */
  lemma SettleCounts(t: Thread, applied: bool, id: TaskID)
    requires WriteOf(t).Some?
    ensures var w := WriteOf(t).value; var after := Settle(t, applied);
      && !EndedThread(id, Completed)(t)
      && (EndedThread(id, Completed)(after) <==> applied && RowOf(id, Finished)(w.row))
      && !(StartedThread(id)(t) && RowOf(id, Started)(w.row))
      && (StartedThread(id)(after) <==> StartedThread(id)(t) || (applied && RowOf(id, Started)(w.row)))
  {
  }

  lemma SpawnIsFresh(t: Thread, w: Write)
    ensures FreshSpawn(SpawnedBy(t, w))
  {
  }

  predicate CommitShape(w: Write)
  {
    && w.row.taskID == w.id
    && (w.delivery.Some? ==> w.delivery.value.task.id == w.id)
    && (w.delivery.Some? && w.delivery.value.FinalDelivery? <==> w.row.action == Finished)
  }

  lemma CommitCounts(db: Database, w: Write, id: TaskID)
    requires CommitShape(w)
    ensures var after := Commit(db, w); var applied := Applies(db, w);
      && CountIf(after.outbox, FinalFor(id))
         == CountIf(db.outbox, FinalFor(id)) + (if applied && RowOf(id, Finished)(w.row) then 1 else 0)
      && CountIf(after.audit, RowOf(id, Finished))
         == CountIf(db.audit, RowOf(id, Finished)) + (if applied && RowOf(id, Finished)(w.row) then 1 else 0)
      && CountIf(after.audit, RowOf(id, Started))
         == CountIf(db.audit, RowOf(id, Started)) + (if applied && RowOf(id, Started)(w.row) then 1 else 0)
  {
    CountAppend(db.audit, w.row, RowOf(id, Finished));
    CountAppend(db.audit, w.row, RowOf(id, Started));
    if w.delivery.Some? {
      CountAppend(db.outbox, w.delivery.value, FinalFor(id));
    }
  }

  /** The threads' side of a store: one more completed or started execution exactly when such a row commits. */
  lemma StoreCounts(s: State, i: nat, id: TaskID)
    requires i < |s.threads| && WriteOf(s.threads[i]).Some?
    ensures var w := WriteOf(s.threads[i]).value; var applied := Applies(s.db, w); var after := StoreStep(s, i, w);
      && CountIf(after.threads, EndedThread(id, Completed))
         == CountIf(s.threads, EndedThread(id, Completed)) + (if applied && RowOf(id, Finished)(w.row) then 1 else 0)
      && CountIf(after.threads, StartedThread(id))
         == CountIf(s.threads, StartedThread(id)) + (if applied && RowOf(id, Started)(w.row) then 1 else 0)
  {
    var t := s.threads[i];
    var w := WriteOf(t).value;
    var applied := Applies(s.db, w);
    var spawned := if applied then SpawnedBy(t, w) else [];
    SpawnIsFresh(t, w);
    assert FreshSpawn([]);
    hide FreshSpawn;
    hide CountIf;
    hide Commit;
    hide Settle;
    hide SpawnedBy;
    hide WriteOf;
    ThreadCounts(s.threads, i, Settle(t, applied), spawned, id);
    SettleCounts(t, applied, id);
  }

  lemma StoreKeepsBalance(s: State, i: nat, id: TaskID)
    requires Balanced(s, id) && i < |s.threads| && WriteOf(s.threads[i]).Some?
    ensures Balanced(StoreStep(s, i, WriteOf(s.threads[i]).value), id)
  {
    var w := WriteOf(s.threads[i]).value;
    assert CommitShape(w) by { WriteShape(s.threads[i]); }
    assert StoreStep(s, i, w).db == Commit(s.db, w);
    hide CountIf;
    hide Commit;
    hide StoreStep;
    hide WriteOf;
    StoreCounts(s, i, id);
    CommitCounts(s.db, w, id);
  }

  lemma AcceptKeepsBalance(s: State, newID: TaskID, d: Dispatch, id: TaskID)
    requires Balanced(s, id)
    ensures Balanced(Step(s, Accept(newID, d)), id)
  {
    var record := NewRecord(d);
    CountAppend(s.db.audit, AuditRow(newID, Created, None, record.state, ""), RowOf(id, Finished));
    CountAppend(s.db.audit, AuditRow(newID, Created, None, record.state, ""), RowOf(id, Started));
    CountAppend(s.threads, Execution(TaskFor(newID, record), Spawned), EndedThread(id, Completed));
    CountAppend(s.threads, Execution(TaskFor(newID, record), Spawned), StartedThread(id));
  }

  lemma StepKeepsBalance(s: State, a: Action, id: TaskID)
    requires Balanced(s, id)
    ensures Balanced(Step(s, a), id)
  {
    match a
    case Accept(newID, d) => AcceptKeepsBalance(s, newID, d, id);
    case Invoke(other, call) =>
      if other in s.db.tasks {
        CountAppend(s.threads, Handler(other, call, s.db.tasks[other]), EndedThread(id, Completed));
        CountAppend(s.threads, Handler(other, call, s.db.tasks[other]), StartedThread(id));
      }
    case Store(i) =>
      if i < |s.threads| && WriteOf(s.threads[i]).Some? { StoreKeepsBalance(s, i, id); }
    case Begin(i) => PhaseKeepsBalance(s, a, i, id);
    case Do(i, _) => PhaseKeepsBalance(s, a, i, id);
    case Forgo(i) => PhaseKeepsBalance(s, a, i, id);
    case Abort(i) => PhaseKeepsBalance(s, a, i, id);
  }

  /** A step that only moves one thread moves it between phases that count alike. */
  lemma PhaseKeepsBalance(s: State, a: Action, i: nat, id: TaskID)
    requires Balanced(s, id)
    requires a == Begin(i) || (a.Do? && a.thread == i) || a == Forgo(i) || a == Abort(i)
    ensures Balanced(Step(s, a), id)
  {
    hide PlanStart;
    hide PlanWork;
    hide PlanCall;
    hide CountIf;
    if Step(s, a) != s {
      var t := Step(s, a).threads[i];
      ThreadCounts(s.threads, i, t, [], id);
      assert s.threads[i := t] + [] == s.threads[i := t];
    }
  }

  /**
   In every interleaving a task has as many final deliveries as "finished" rows and completed
   executions, and its "started" rows are these plus the executions in flight plus the dropped ones.
   */
  lemma {:induction false} DeliveriesAreConserved(actions: seq<Action>, id: TaskID)
    ensures var s := Run(INITIAL, actions);
      && Finals(s, id) == Rows(s, id, Finished)
      && Rows(s, id, Finished) == CountIf(s.threads, EndedThread(id, Completed))
      && Rows(s, id, Started)
         == Finals(s, id) + CountIf(s.threads, InFlightThread(id)) + CountIf(s.threads, EndedThread(id, Dropped))
  {
    BalancedRun(actions, id);
    var s := Run(INITIAL, actions);
    CountPartition(s.threads, StartedThread(id), EndedThread(id, Completed), InFlightThread(id),
                   EndedThread(id, Dropped));
  }

  lemma {:induction false} BalancedRun(actions: seq<Action>, id: TaskID)
    ensures Balanced(Run(INITIAL, actions), id)
  {
    if actions != [] {
      var n := |actions| - 1;
      BalancedRun(actions[..n], id);
      StepKeepsBalance(Run(INITIAL, actions[..n]), actions[n], id);
    }
  }
}
