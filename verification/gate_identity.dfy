/** A task's identity and policy never change, and its deliveries are addressed with them. */
module GateIdentity {
  import opened Sequences
  import opened GateModel
  import opened GateMachine

  /** The fields that no handler assigns after creation. */
  predicate SameIdentity(a: TaskRecord, b: TaskRecord)
  {
    && a.channelID == b.channelID && a.targetID == b.targetID && a.content == b.content && a.metadata == b.metadata
    && a.maxAttempts == b.maxAttempts && a.maxWallTimeMS == b.maxWallTimeMS && a.requireApproval == b.requireApproval
  }

  predicate TaskAgrees(task: Task, record: TaskRecord)
  {
    && task.channelID == record.channelID && task.targetID == record.targetID
    && task.content == record.content && task.metadata == record.metadata
  }

  /** The record a thread read, if it still holds one. */
  function SnapshotOf(t: Thread): Option<TaskRecord>
  {
    match t
    case Handler(_, _, snapshot) => Some(snapshot)
    case Execution(_, Starting(snapshot)) => Some(snapshot)
    case Execution(_, Writing(_, snapshot)) => Some(snapshot)
    case _ => None
  }

  predicate ThreadAgrees(t: Thread, tasks: map<TaskID, TaskRecord>)
  {
    && (t.Handler? ==> t.id in tasks && SameIdentity(t.snapshot, tasks[t.id]))
    && (t.Execution? ==> t.task.id in tasks && TaskAgrees(t.task, tasks[t.task.id])
                         && (SnapshotOf(t).Some? ==> SameIdentity(SnapshotOf(t).value, tasks[t.task.id])))
  }

  predicate DeliveryAgrees(row: OutboxRow, tasks: map<TaskID, TaskRecord>)
  {
    row.task.id in tasks && TaskAgrees(row.task, tasks[row.task.id])
  }

  ghost predicate Consistent(s: State)
  {
    && (forall t <- s.threads :: ThreadAgrees(t, s.db.tasks))
    && (forall row <- s.db.outbox :: DeliveryAgrees(row, s.db.tasks))
  }

  ghost predicate KeepsIdentity(before: map<TaskID, TaskRecord>, after: map<TaskID, TaskRecord>)
  {
    forall id <- before :: id in after && SameIdentity(before[id], after[id])
  }

  lemma ProjectionKeepsIdentity(id: TaskID, e: Projection, entry: TaskRecord)
    ensures var w := PlanProjection(id, e, entry); w.Some? ==>
      w.value.id == id && SameIdentity(w.value.record, entry) && w.value.delivery == None
  {
    match e.state {
      case Running =>
      case Queued =>
      case Progress =>
      case Final =>
      case Failed =>
      case Other(_) =>
    }
  }

  lemma CallKeepsIdentity(id: TaskID, call: Call, entry: TaskRecord)
    ensures var w := PlanCall(id, call, entry); w.Some? ==>
      w.value.id == id && SameIdentity(w.value.record, entry) && w.value.delivery == None
  {
    if call.Project? {
      ProjectionKeepsIdentity(id, call.event, entry);
    }
  }

  lemma StartKeepsIdentity(id: TaskID, entry: TaskRecord)
    ensures var w := PlanStart(id, entry); w.Some? ==>
      w.value.id == id && SameIdentity(w.value.record, entry) && w.value.delivery == None
  {
  }

  lemma WorkKeepsIdentity(task: Task, work: Work, entry: TaskRecord)
    ensures var w := PlanWork(task, work, entry); w.Some? ==>
      w.value.id == task.id && SameIdentity(w.value.record, entry)
      && (w.value.delivery.Some? ==> w.value.delivery.value.task == task)
  {
    if work.ApplyEvent? {
      ProjectionKeepsIdentity(task.id, work.event, entry);
    }
  }

  lemma WriteKeepsIdentity(t: Thread, tasks: map<TaskID, TaskRecord>)
    requires WriteOf(t).Some? && ThreadAgrees(t, tasks)
    ensures var w := WriteOf(t).value;
      && w.id in tasks && SameIdentity(w.record, tasks[w.id])
      && (w.delivery.Some? ==> DeliveryAgrees(w.delivery.value, tasks))
  {
    match t {
      case Handler(id, call, snapshot) => CallKeepsIdentity(id, call, snapshot);
      case Execution(task, Starting(snapshot)) => StartKeepsIdentity(task.id, snapshot);
      case Execution(task, Writing(work, snapshot)) => WorkKeepsIdentity(task, work, snapshot);
    }
  }

  /** Settling and spawning leave threads that agree with the stored record. */
  lemma SettledAgrees(t: Thread, w: Write, applied: bool, tasks: map<TaskID, TaskRecord>)
    requires ThreadAgrees(t, tasks) && WriteOf(t).Some?
    requires w.id in tasks
    requires applied ==> tasks[w.id] == w.record
    ensures ThreadAgrees(Settle(t, applied), tasks)
    ensures applied ==> forall u <- SpawnedBy(t, w) :: ThreadAgrees(u, tasks)
  {
  }

  lemma AgreementIsKept(t: Thread, before: map<TaskID, TaskRecord>, after: map<TaskID, TaskRecord>)
    requires ThreadAgrees(t, before) && KeepsIdentity(before, after)
    ensures ThreadAgrees(t, after)
  {
  }

  lemma StoreKeepsConsistent(s: State, i: nat)
    requires Consistent(s) && i < |s.threads| && WriteOf(s.threads[i]).Some?
    ensures var after := StoreStep(s, i, WriteOf(s.threads[i]).value);
      Consistent(after) && KeepsIdentity(s.db.tasks, after.db.tasks)
  {
    var t := s.threads[i];
    var w := WriteOf(t).value;
    assert t in s.threads;
    WriteKeepsIdentity(t, s.db.tasks);
    var after := StoreStep(s, i, w);
    assert KeepsIdentity(s.db.tasks, after.db.tasks);
    AgreementIsKept(t, s.db.tasks, after.db.tasks);
    SettledAgrees(t, w, Applies(s.db, w), after.db.tasks);
    forall u <- after.threads ensures ThreadAgrees(u, after.db.tasks) {
      var j :| 0 <= j < |after.threads| && after.threads[j] == u;
      if j != i && j < |s.threads| {
        assert s.threads[j] in s.threads;
        AgreementIsKept(u, s.db.tasks, after.db.tasks);
      }
    }
    forall row <- after.db.outbox ensures DeliveryAgrees(row, after.db.tasks) {
      assert DeliveryAgrees(row, s.db.tasks);
    }
  }

  lemma AcceptKeepsConsistent(s: State, id: TaskID, d: Dispatch)
    requires Consistent(s)
    ensures Consistent(Step(s, Accept(id, d))) && KeepsIdentity(s.db.tasks, Step(s, Accept(id, d)).db.tasks)
  {
    var after := Step(s, Accept(id, d));
    assert KeepsIdentity(s.db.tasks, after.db.tasks);
    forall u <- after.threads ensures ThreadAgrees(u, after.db.tasks) {
      if u in s.threads {
        AgreementIsKept(u, s.db.tasks, after.db.tasks);
      }
    }
  }

  lemma ReplaceKeepsConsistent(s: State, i: nat, t: Thread)
    requires Consistent(s) && i < |s.threads| && ThreadAgrees(t, s.db.tasks)
    ensures Consistent(s.(threads := s.threads[i := t]))
  {
    hide ThreadAgrees;
    MembersOfUpdate(s.threads, i, t);
  }

  /** A thread's own step takes the stored record as its snapshot, or drops the one it had. */
  lemma QuietStepKeepsConsistent(s: State, a: Action)
    requires Consistent(s) && !a.Store?
    ensures Consistent(Step(s, a)) && KeepsIdentity(s.db.tasks, Step(s, a).db.tasks)
  {
    hide PlanCall;
    hide PlanStart;
    hide PlanWork;
    match a
    case Accept(id, d) => AcceptKeepsConsistent(s, id, d);
    case Invoke(id, call) =>
    case Begin(i) =>
      if i < |s.threads| {
        assert ThreadAgrees(s.threads[i], s.db.tasks);
        ReplaceKeepsConsistent(s, i, Step(s, a).threads[i]);
      }
    case Do(i, _) =>
      if i < |s.threads| {
        assert ThreadAgrees(s.threads[i], s.db.tasks);
        ReplaceKeepsConsistent(s, i, Step(s, a).threads[i]);
      }
    case Forgo(i) =>
      if i < |s.threads| {
        assert ThreadAgrees(s.threads[i], s.db.tasks);
        ReplaceKeepsConsistent(s, i, Step(s, a).threads[i]);
      }
    case Abort(i) =>
      if i < |s.threads| {
        assert ThreadAgrees(s.threads[i], s.db.tasks);
        ReplaceKeepsConsistent(s, i, Step(s, a).threads[i]);
      }
  }

  lemma StepKeepsConsistent(s: State, a: Action)
    requires Consistent(s)
    ensures Consistent(Step(s, a)) && KeepsIdentity(s.db.tasks, Step(s, a).db.tasks)
  {
    if !a.Store? {
      QuietStepKeepsConsistent(s, a);
    } else if a.thread < |s.threads| && WriteOf(s.threads[a.thread]).Some? {
      StoreKeepsConsistent(s, a.thread);
    }
  }

  lemma {:induction false} RunIsConsistent(actions: seq<Action>)
    ensures Consistent(Run(INITIAL, actions))
  {
    if actions != [] {
      var n := |actions| - 1;
      RunIsConsistent(actions[..n]);
      StepKeepsConsistent(Run(INITIAL, actions[..n]), actions[n]);
    }
  }

  /** Whatever happens later, a task keeps the identity and policy it was created with. */
  lemma {:induction false} IdentityIsPermanent(first: seq<Action>, later: seq<Action>)
    ensures KeepsIdentity(Run(INITIAL, first).db.tasks, Run(INITIAL, first + later).db.tasks)
  {
    hide Step;
    if later == [] {
      assert first + later == first;
    } else {
      var n := |later| - 1;
      IdentityIsPermanent(first, later[..n]);
      LastOfAppend(first, later);
      RunIsConsistent(first + later[..n]);
      StepKeepsConsistent(Run(INITIAL, first + later[..n]), later[n]);
    }
  }

  /** Every delivery ever enqueued is addressed to the channel and target its task was accepted for. */
  lemma DeliveriesAreAddressed(actions: seq<Action>, row: OutboxRow)
    requires row in Run(INITIAL, actions).db.outbox
    ensures DeliveryAgrees(row, Run(INITIAL, actions).db.tasks)
  {
    RunIsConsistent(actions);
  }
}
