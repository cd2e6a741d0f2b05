/**
 Where what is stored and delivered comes from, over every interleaving: a task from the first dispatch that was
 accepted for it, a delivery from the work of an execution whose store committed.
 */
module GateOrigins {
  import opened Sequences
  import opened GateModel
  import opened GateMachine
  import opened GateIdentity

  // ---- Tasks and their dispatches ----

  /** Action p accepts the task's first dispatch. */
  predicate FirstAccept(actions: seq<Action>, id: TaskID, p: nat)
    requires p < |actions|
  {
    && actions[p].Accept? && actions[p].id == id
    && forall q :: 0 <= q < p ==> !(actions[q].Accept? && actions[q].id == id)
  }

  /** The fields of a task that its dispatch decides. */
  predicate IsAsSent(r: TaskRecord, d: Dispatch)
  {
    && r.channelID == d.channelID && r.targetID == d.targetID && r.content == d.content && r.metadata == d.metadata
    && r.maxAttempts == d.options.maxAttempts && r.maxWallTimeMS == d.options.maxWallTimeMS
    && r.requireApproval == d.options.requireApproval
  }

  predicate IsAddressed(task: Task, d: Dispatch)
  {
    task.channelID == d.channelID && task.targetID == d.targetID && task.content == d.content
    && task.metadata == d.metadata
  }

  ghost predicate HasOrigin(actions: seq<Action>, id: TaskID, tasks: map<TaskID, TaskRecord>)
  {
    exists p :: 0 <= p < |actions| && FirstAccept(actions, id, p)
                && id in tasks && IsAsSent(tasks[id], actions[p].dispatch)
  }

  lemma FirstAcceptStays(actions: seq<Action>, a: Action, id: TaskID, p: nat)
    requires p < |actions|
    ensures FirstAccept(actions + [a], id, p) <==> FirstAccept(actions, id, p)
  {
    assert forall q :: 0 <= q < |actions| ==> (actions + [a])[q] == actions[q];
  }

  /** A task comes into being only when it is accepted, as it was sent. */
  lemma StepCreates(s: State, a: Action, id: TaskID)
    requires id !in s.db.tasks
    ensures if a.Accept? && a.id == id then id in Step(s, a).db.tasks && IsAsSent(Step(s, a).db.tasks[id], a.dispatch)
            else id !in Step(s, a).db.tasks
  {
    if a.Store? && a.thread < |s.threads| && WriteOf(s.threads[a.thread]).Some? {
      assert Step(s, a).db == Commit(s.db, WriteOf(s.threads[a.thread]).value);
      hide WriteOf;
      hide Step;
    } else if a.Accept? {
      if a.id !in s.db.tasks {
        assert Step(s, a).db.tasks == s.db.tasks[a.id := NewRecord(a.dispatch)];
      }
    } else {
      assert Step(s, a).db == s.db;
    }
  }

  /**
   Over every schedule, a task is stored exactly when a dispatch was accepted for it, and it is as the first such
   dispatch was sent, whatever came later.
   */
  lemma {:induction false} TasksAreAsSent(actions: seq<Action>, id: TaskID)
    ensures var tasks := Run(INITIAL, actions).db.tasks;
      && (id in tasks <==> exists p :: 0 <= p < |actions| && actions[p].Accept? && actions[p].id == id)
      && (id in tasks ==> HasOrigin(actions, id, tasks))
  {
    if actions != [] {
      var n := |actions| - 1;
      var s, a := Run(INITIAL, actions[..n]), actions[n];
      assert actions == actions[..n] + [a];
      TasksAreAsSent(actions[..n], id);
      RunIsConsistent(actions[..n]);
      StepKeepsConsistent(s, a);
      hide Step;
      hide Consistent;
      if id in s.db.tasks {
        var p :| 0 <= p < n && FirstAccept(actions[..n], id, p) && IsAsSent(s.db.tasks[id], actions[..n][p].dispatch);
        FirstAcceptStays(actions[..n], a, id, p);
        assert actions[p] == actions[..n][p];
      } else {
        StepCreates(s, a, id);
        assert forall q :: 0 <= q < n ==> actions[q] == actions[..n][q];
        if a.Accept? && a.id == id {
          assert FirstAccept(actions, id, n);
        }
      }
    }
  }

  /** Every execution and every delivery carries the address, the content and the metadata of that dispatch. */
  lemma DeliveriesAreAsSent(actions: seq<Action>, task: Task)
    requires var s := Run(INITIAL, actions);
      (exists row <- s.db.outbox :: row.task == task) || (exists t <- s.threads :: t.Execution? && t.task == task)
    ensures exists p ::
      0 <= p < |actions| && FirstAccept(actions, task.id, p) && IsAddressed(task, actions[p].dispatch)
  {
    var s := Run(INITIAL, actions);
    RunIsConsistent(actions);
    TasksAreAsSent(actions, task.id);
    hide Run;
    assert task.id in s.db.tasks && TaskAgrees(task, s.db.tasks[task.id]) by {
      if row :| row in s.db.outbox && row.task == task {
        assert DeliveryAgrees(row, s.db.tasks);
      } else {
        var t :| t in s.threads && t.Execution? && t.task == task;
        assert ThreadAgrees(t, s.db.tasks);
      }
    }
    var p :| 0 <= p < |actions| && FirstAccept(actions, task.id, p)
             && IsAsSent(s.db.tasks[task.id], actions[p].dispatch);
    assert IsAddressed(task, actions[p].dispatch);
  }

  // ---- Deliveries and the work they come from ----

  /** Action q asked execution i of the task for this work. */
  predicate Asked(actions: seq<Action>, q: nat, i: nat, task: Task, work: Work)
    requires q < |actions|
  {
    var s := Run(INITIAL, actions[..q]);
    && actions[q] == Do(i, work)
    && i < |s.threads| && s.threads[i].Execution? && s.threads[i].task == task && s.threads[i].phase.Working?
  }

  /** The work whose store delivers the row. */
  function WorkFor(row: OutboxRow): Work
  {
    match row
    case FinalDelivery(_, result) => Finish(result)
    case ProgressDelivery(_, status, content) => ReportProgress(status, content)
  }

  ghost predicate WasAsked(actions: seq<Action>, i: nat, task: Task, work: Work)
  {
    exists q :: 0 <= q < |actions| && Asked(actions, q, i, task, work)
  }

  predicate IsWriting(s: State, i: nat, task: Task, work: Work)
  {
    && i < |s.threads| && s.threads[i].Execution? && s.threads[i].task == task
    && s.threads[i].phase.Writing? && s.threads[i].phase.work == work
  }

  /** An execution has work to store after a step if it had it before, or was asked for it in this step. */
  lemma WritingWasAsked(s: State, a: Action, i: nat, task: Task, work: Work)
    requires IsWriting(Step(s, a), i, task, work)
    ensures IsWriting(s, i, task, work)
            || (a == Do(i, work) && i < |s.threads| && s.threads[i].Execution? && s.threads[i].task == task
                && s.threads[i].phase.Working?)
  {
  }

  lemma AskedStays(actions: seq<Action>, a: Action, q: nat, i: nat, task: Task, work: Work)
    requires q < |actions|
    ensures Asked(actions + [a], q, i, task, work) <==> Asked(actions, q, i, task, work)
  {
    assert (actions + [a])[..q] == actions[..q];
  }

  /** Every execution with work to store was asked for it. */
  lemma {:induction false} WorkWasAsked(actions: seq<Action>, i: nat, task: Task, work: Work)
    requires IsWriting(Run(INITIAL, actions), i, task, work)
    ensures WasAsked(actions, i, task, work)
  {
    if actions != [] {
      var n := |actions| - 1;
      assert actions == actions[..n] + [actions[n]];
      WritingWasAsked(Run(INITIAL, actions[..n]), actions[n], i, task, work);
      hide Step;
      if IsWriting(Run(INITIAL, actions[..n]), i, task, work) {
        WorkWasAsked(actions[..n], i, task, work);
        var q :| 0 <= q < n && Asked(actions[..n], q, i, task, work);
        AskedStays(actions[..n], actions[n], q, i, task, work);
      } else {
        assert Asked(actions, n, i, task, work);
      }
    }
  }

  /** What the store of that work leaves of the task. */
  predicate Leaves(after: Database, task: Task, work: Work)
  {
    && task.id in after.tasks
    && var r := after.tasks[task.id];
       match work
       case Finish(result) => r.state == FinalState && r.result == result
       case ReportProgress(status, content) => r.progressState == status && r.progress == content
       case _ => false
  }

  /** A step enqueues nothing, or stores an execution's result or progress, and enqueues that. */
  lemma StepDelivers(s: State, a: Action)
    ensures var after := Step(s, a);
      after.db.outbox == s.db.outbox ||
      exists row :: after.db.outbox == s.db.outbox + [row] && a.Store?
                    && IsWriting(s, a.thread, row.task, WorkFor(row)) && Leaves(after.db, row.task, WorkFor(row))
  {
    if a.Store? && a.thread < |s.threads| && WriteOf(s.threads[a.thread]).Some? {
      var t := s.threads[a.thread];
      var w := WriteOf(t).value;
      assert Step(s, a).db == Commit(s.db, w);
      WriteShape(t);
      if w.delivery.Some? && Applies(s.db, w) {
        var row := w.delivery.value;
        assert IsWriting(s, a.thread, row.task, WorkFor(row)) && Leaves(Step(s, a).db, row.task, WorkFor(row));
      }
    }
  }

  /** Action p stores the work that action q asked for, of this row, with what it leaves of the task. */
  predicate Delivered(actions: seq<Action>, q: nat, p: nat, row: OutboxRow)
    requires q < p < |actions|
  {
    var s, after := Run(INITIAL, actions[..p]), Run(INITIAL, actions[..p + 1]);
    && actions[p].Store? && Asked(actions, q, actions[p].thread, row.task, WorkFor(row))
    && after.db.outbox == s.db.outbox + [row] && Leaves(after.db, row.task, WorkFor(row))
  }

  lemma DeliveredStays(actions: seq<Action>, a: Action, q: nat, p: nat, row: OutboxRow)
    requires q < p < |actions|
    ensures Delivered(actions + [a], q, p, row) <==> Delivered(actions, q, p, row)
  {
    assert (actions + [a])[..p] == actions[..p] && (actions + [a])[..p + 1] == actions[..p + 1];
    if actions[p].Store? {
      AskedStays(actions, a, q, actions[p].thread, row.task, WorkFor(row));
    }
    hide Run;
    hide Asked;
    hide Leaves;
  }

  /**
   Over every schedule, each final delivery carries the result, and each progress delivery the status and the
   content, that an execution of its task was asked to store; that store left the very same in the record.
   */
  lemma {:induction false} DeliveriesComeFromWork(actions: seq<Action>, row: OutboxRow)
    requires row in Run(INITIAL, actions).db.outbox
    ensures exists q, p :: 0 <= q < p < |actions| && Delivered(actions, q, p, row)
  {
    var n := |actions| - 1;
    var s, a := Run(INITIAL, actions[..n]), actions[n];
    assert actions == actions[..n] + [a] && actions[..n + 1] == actions;
    StepDelivers(s, a);
    hide Step;
    hide Leaves;
    if row in s.db.outbox {
      DeliveriesComeFromWork(actions[..n], row);
      var q, p :| 0 <= q < p < n && Delivered(actions[..n], q, p, row);
      DeliveredStays(actions[..n], a, q, p, row);
    } else {
      var last :| Step(s, a).db.outbox == s.db.outbox + [last] && a.Store?
        && IsWriting(s, a.thread, last.task, WorkFor(last)) && Leaves(Step(s, a).db, last.task, WorkFor(last));
      assert row == last;
      WorkWasAsked(actions[..n], a.thread, row.task, WorkFor(row));
      var q :| 0 <= q < n && Asked(actions[..n], q, a.thread, row.task, WorkFor(row));
      AskedStays(actions[..n], a, q, a.thread, row.task, WorkFor(row));
      assert Delivered(actions, q, n, row);
    }
  }

  /** A result or a progress report is delivered exactly when its store still finds the state it was read in. */
  lemma StoredWorkIsDelivered(s: State, i: nat, task: Task, work: Work)
    requires IsWriting(s, i, task, work) && (work.Finish? || work.ReportProgress?)
    requires WriteOf(s.threads[i]).Some?
    ensures var after := Step(s, Store(i)).db;
      if task.id in s.db.tasks && s.db.tasks[task.id].state == s.threads[i].phase.snapshot.state then
        && Leaves(after, task, work)
        && after.outbox == s.db.outbox + [if work.Finish? then FinalDelivery(task, work.result)
                                          else ProgressDelivery(task, work.progressState, work.progress)]
      else after == s.db
  {
  }
}
