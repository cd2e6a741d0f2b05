/** When the attempt budget bounds how often a task is started. */
module GateAttempts {
  import opened Sequences
  import opened GateModel
  import opened GateMachine
  import opened GateIdentity
  import GateSafety

  function StartedRows(s: State, id: TaskID): nat
  {
    GateSafety.Rows(s, id, Started)
  }

  predicate WithinBudget(s: State, id: TaskID)
  {
    id in s.db.tasks && s.db.tasks[id].maxAttempts > 0 ==> StartedRows(s, id) <= s.db.tasks[id].maxAttempts
  }

  /** The attempt counter has counted every start, and no start exceeds the budget. */
  predicate Counted(s: State, id: TaskID)
  {
    && (id in s.db.tasks ==> StartedRows(s, id) <= s.db.tasks[id].attempt)
    && (id !in s.db.tasks ==> StartedRows(s, id) == 0)
    && WithinBudget(s, id)
  }

  /** A store that succeeds was computed from a record with the attempt count still stored. */
  predicate FreshAttempt(s: State, a: Action)
  {
    (a.Store? && a.thread < |s.threads| && WriteOf(s.threads[a.thread]).Some?
     && SnapshotOf(s.threads[a.thread]).Some?) ==>
      var w := WriteOf(s.threads[a.thread]).value;
      Applies(s.db, w) ==> SnapshotOf(s.threads[a.thread]).value.attempt == s.db.tasks[w.id].attempt
  }

  ghost predicate AlwaysFresh(actions: seq<Action>)
  {
    actions != [] ==>
      var n := |actions| - 1;
      AlwaysFresh(actions[..n]) && FreshAttempt(Run(INITIAL, actions[..n]), actions[n])
  }

  /** The thread is about to take its task. */
  predicate Starts(t: Thread)
  {
    t.Execution? && t.phase.Starting?
  }

  /** Only a start raises the counter, by one; it is refused when the raised counter is beyond the budget. */
  lemma WriteCounts(t: Thread)
    requires WriteOf(t).Some?
    ensures SnapshotOf(t).Some?
    ensures var w := WriteOf(t).value; var snapshot := SnapshotOf(t).value;
      && w.record.attempt == snapshot.attempt + (if Starts(t) then 1 else 0)
      && (w.row.action == Started ==> Starts(t))
      && (Starts(t) ==> w.row.action == Started || w.row.action == ExecutionFailed)
      && (w.row.action == Started && w.record.maxAttempts > 0 ==> w.record.attempt <= w.record.maxAttempts)
  {
    match t {
      case Handler(id, call, snapshot) =>
        if call.Project? { ProjectionKeepsAttempt(id, call.event, snapshot); }
      case Execution(task, Starting(snapshot)) =>
      case Execution(task, Writing(work, snapshot)) =>
        if work.ApplyEvent? { ProjectionKeepsAttempt(task.id, work.event, snapshot); }
    }
  }

  lemma ProjectionKeepsAttempt(id: TaskID, e: Projection, entry: TaskRecord)
    ensures var w := PlanProjection(id, e, entry); w.Some? ==>
      w.value.record.attempt == entry.attempt && w.value.row.action != Started
  {
    match e.state {
      case Running =>
      case Queued =>
      case Progress =>
      case Final =>
      case Failed =>
      case Other(_) =>
    }
  }

  lemma StepKeepsCount(s: State, a: Action, id: TaskID)
    requires Consistent(s) && Counted(s, id) && FreshAttempt(s, a)
    ensures Counted(Step(s, a), id)
  {
    if a.Accept? {
      CountAppend(s.db.audit, AuditRow(a.id, Created, None, NewRecord(a.dispatch).state, ""),
                  GateSafety.RowOf(id, Started));
    } else if a.Store? && a.thread < |s.threads| && WriteOf(s.threads[a.thread]).Some? {
      StoreKeepsCount(s, a.thread, id);
    } else {
      assert Step(s, a).db == s.db;
      hide Step;
    }
  }

  lemma StoreKeepsCount(s: State, i: nat, id: TaskID)
    requires Consistent(s) && Counted(s, id) && FreshAttempt(s, Store(i))
    requires i < |s.threads| && WriteOf(s.threads[i]).Some?
    ensures Counted(Step(s, Store(i)), id)
  {
    var t := s.threads[i];
    var w := WriteOf(t).value;
    assert t in s.threads;
    WriteCounts(t);
    WriteKeepsIdentity(t, s.db.tasks);
    assert GateSafety.CommitShape(w) by { WriteShape(t); }
    GateSafety.CommitCounts(s.db, w, id);
    assert Step(s, Store(i)).db == Commit(s.db, w);
    hide Step;
    hide WriteOf;
    hide SnapshotOf;
    hide Consistent;
    hide CountIf;
  }

  /**
   If every store that succeeds still finds the attempt count it read, a task with a positive
   MaxAttempts is started at most that often, however it is approved, resumed, recovered or projected.
   */
  lemma {:induction false} BudgetHoldsWhenFresh(actions: seq<Action>, id: TaskID)
    requires AlwaysFresh(actions)
    ensures Counted(Run(INITIAL, actions), id)
  {
    if actions != [] {
      hide Step;
      hide Counted;
      hide FreshAttempt;
      hide Consistent;
      var n := |actions| - 1;
      BudgetHoldsWhenFresh(actions[..n], id);
      RunIsConsistent(actions[..n]);
      StepKeepsCount(Run(INITIAL, actions[..n]), actions[n], id);
    }
  }

  // ---- Handlers whose read and compare-and-set are one step ----

  /** A handler's read followed at once by its store. */
  function Serial(s: State, a: Action): State
  {
    var mid := Step(s, a);
    match a
    case Accept(_, _) => mid
    case Forgo(_) => mid
    case Abort(_) => mid
    case Store(_) => s
    case Invoke(_, _) => Step(mid, Store(|s.threads|))
    case Begin(i) => Step(mid, Store(i))
    case Do(i, _) => Step(mid, Store(i))
  }

  function RunSerial(s: State, actions: seq<Action>): State
  {
    if actions == [] then s
    else Serial(RunSerial(s, actions[..|actions| - 1]), actions[|actions| - 1])
  }

  /** No thread holds a snapshot. */
  ghost predicate Settled(s: State)
  {
    forall t <- s.threads :: SnapshotOf(t).None?
  }

  lemma StoreSettles(s: State, i: nat)
    requires forall j :: 0 <= j < |s.threads| && j != i ==> SnapshotOf(s.threads[j]).None?
    requires i < |s.threads| && SnapshotOf(s.threads[i]).Some? ==> WriteOf(s.threads[i]).Some?
    ensures Settled(Step(s, Store(i)))
  {
  }

  /** After one serial read, the only snapshot held is the stored record. */
  lemma ReadIsFresh(s: State, a: Action, i: nat)
    requires Settled(s)
    requires a == Begin(i) || (a.Do? && a.thread == i) || (a.Invoke? && i == |s.threads|)
    ensures var mid := Step(s, a);
      && (forall j :: 0 <= j < |mid.threads| && j != i ==> SnapshotOf(mid.threads[j]).None?)
      && (i < |mid.threads| && SnapshotOf(mid.threads[i]).Some? ==> WriteOf(mid.threads[i]).Some?)
      && FreshAttempt(mid, Store(i))
  {
    var mid := Step(s, a);
    assert forall j :: 0 <= j < |s.threads| ==> s.threads[j] in s.threads;
    if i < |mid.threads| && WriteOf(mid.threads[i]).Some? {
      WriteShape(mid.threads[i]);
    }
  }

  /** A read of thread i and the store that follows it. */
  lemma ReadAndStoreKeepCount(s: State, a: Action, i: nat, id: TaskID)
    requires Consistent(s) && Counted(s, id) && Settled(s)
    requires a == Begin(i) || (a.Do? && a.thread == i) || (a.Invoke? && i == |s.threads|)
    ensures var after := Step(Step(s, a), Store(i)); Consistent(after) && Counted(after, id) && Settled(after)
  {
    var mid := Step(s, a);
    ReadIsFresh(s, a, i);
    assert FreshAttempt(s, a);
    StoreSettles(mid, i);
    hide Step;
    hide Consistent;
    hide Counted;
    hide FreshAttempt;
    hide Settled;
    StepKeepsConsistent(s, a);
    StepKeepsCount(s, a, id);
    StepKeepsConsistent(mid, Store(i));
    StepKeepsCount(mid, Store(i), id);
  }

  lemma SerialKeepsCount(s: State, a: Action, id: TaskID)
    requires Consistent(s) && Counted(s, id) && Settled(s)
    ensures Consistent(Serial(s, a)) && Counted(Serial(s, a), id) && Settled(Serial(s, a))
  {
    if a.Begin? || a.Do? || a.Invoke? {
      ReadAndStoreKeepCount(s, a, if a.Invoke? then |s.threads| else a.thread, id);
      hide Step;
    } else if !a.Store? {
      assert FreshAttempt(s, a);
      QuietSettles(s, a);
      StepKeepsConsistent(s, a);
      StepKeepsCount(s, a, id);
      hide Step;
    }
    hide Consistent;
    hide Counted;
    hide Settled;
  }

  lemma QuietSettles(s: State, a: Action)
    requires Settled(s) && (a.Accept? || a.Forgo? || a.Abort?)
    ensures Settled(Step(s, a))
  {
    assert forall j :: 0 <= j < |s.threads| ==> s.threads[j] in s.threads;
  }

  /** With each read and compare-and-set taken as one step, the budget holds over every run. */
  lemma {:induction false} SerialBudget(actions: seq<Action>, id: TaskID)
    ensures Consistent(RunSerial(INITIAL, actions)) && Settled(RunSerial(INITIAL, actions))
    ensures Counted(RunSerial(INITIAL, actions), id)
  {
    if actions != [] {
      var n := |actions| - 1;
      SerialBudget(actions[..n], id);
      SerialKeepsCount(RunSerial(INITIAL, actions[..n]), actions[n], id);
    }
  }

  // ---- A stale snapshot breaks the budget ----

  lemma RunNext(actions: seq<Action>, a: Action)
    ensures Run(INITIAL, actions + [a]) == Step(Run(INITIAL, actions), a)
  {
    assert (actions + [a])[..|actions|] == actions;
  }

  function Sample(maxAttempts: int): Dispatch
  {
    Dispatch("c", "t", "x", map[], TaskOptions(false, maxAttempts, 0))
  }

  /** Thread i of s reads and at once commits its next write. */
  function ReadAndStore(s: State, read: Action, i: nat): State
  {
    Step(Step(s, read), Store(i))
  }

  /** The working execution i fails, and an operator resumes the task. */
  function FailAndResume(s: State, i: nat, id: TaskID): State
  {
    ReadAndStore(ReadAndStore(s, Do(i, Fail("")), i), Invoke(id, Resume("")), |s.threads|)
  }

  lemma StartSucceeds(s: State, i: nat, id: TaskID)
    requires i < |s.threads| && s.threads[i].Execution? && s.threads[i].task.id == id && s.threads[i].phase.Spawned?
    requires id in s.db.tasks && s.db.tasks[id].state == QueuedState
    requires s.db.tasks[id].maxAttempts > 0 ==> s.db.tasks[id].attempt < s.db.tasks[id].maxAttempts
    ensures ReadAndStore(s, Begin(i), i) == State(
      Database(s.db.tasks[id := s.db.tasks[id].(state := RunningState, attempt := s.db.tasks[id].attempt + 1)],
               s.db.audit + [AuditRow(id, Started, Some(QueuedState), RunningState, "")], s.db.outbox),
      s.threads[i := s.threads[i].(phase := Working)])
  {
    var r := s.db.tasks[id];
    assert PlanStart(id, r) == Some(Write(id, QueuedState, r.(state := RunningState, attempt := r.attempt + 1),
                                          AuditRow(id, Started, Some(QueuedState), RunningState, ""), None));
    var mid := SetPhase(s, i, Starting(r));
    assert Step(s, Begin(i)) == mid;
    var threads := s.threads[i := s.threads[i].(phase := Working)];
    assert mid.threads[i := s.threads[i].(phase := Working)] + [] == threads;
  }

  lemma FailureIsStored(s: State, i: nat, id: TaskID)
    requires i < |s.threads| && s.threads[i].Execution? && s.threads[i].task.id == id && s.threads[i].phase.Working?
    requires id in s.db.tasks && s.db.tasks[id].state == RunningState
    ensures ReadAndStore(s, Do(i, Fail("")), i) == State(
      Database(s.db.tasks[id := s.db.tasks[id].(state := FailedState, error := "")],
               s.db.audit + [AuditRow(id, ExecutionFailed, Some(RunningState), FailedState, "")], s.db.outbox),
      s.threads[i := s.threads[i].(phase := Ended(Dropped))])
  {
    var mid := SetPhase(s, i, Writing(Fail(""), s.db.tasks[id]));
    assert Step(s, Do(i, Fail(""))) == mid;
    var threads := s.threads[i := s.threads[i].(phase := Ended(Dropped))];
    assert mid.threads[i := s.threads[i].(phase := Ended(Dropped))] + [] == threads;
  }

  lemma ResumeIsStored(s: State, id: TaskID)
    requires id in s.db.tasks && s.db.tasks[id].state == FailedState
    ensures var i := |s.threads|; var next := s.db.tasks[id].(state := QueuedState, error := "");
      ReadAndStore(s, Invoke(id, Resume("")), i) == State(
        Database(s.db.tasks[id := next],
                 s.db.audit + [AuditRow(id, Resumed, Some(FailedState), QueuedState, "")], s.db.outbox),
        s.threads + [Gone, Execution(TaskFor(id, next), Spawned)])
  {
    var i := |s.threads|;
    var h := Handler(id, Resume(""), s.db.tasks[id]);
    assert Step(s, Invoke(id, Resume(""))).threads == s.threads + [h];
    assert (s.threads + [h])[i := Gone] == s.threads + [Gone];
  }

  /** A recovery that read r succeeds over any queued record and puts r back. */
  lemma StaleRecoveryRewinds(s: State, i: nat, id: TaskID, r: TaskRecord)
    requires i < |s.threads| && s.threads[i] == Handler(id, Recover, r)
    requires r.state == QueuedState && !r.requireApproval
    requires id in s.db.tasks && s.db.tasks[id].state == QueuedState
    ensures Step(s, Store(i)) == State(
      Database(s.db.tasks[id := r],
               s.db.audit + [AuditRow(id, Recovered, Some(QueuedState), QueuedState, "process startup recovery")],
               s.db.outbox),
      s.threads[i := Gone] + [Execution(TaskFor(id, r), Spawned)])
  {
    assert r.(state := QueuedState) == r;
  }

  /** The schedule that overspends the budget. */
  function Overspend(id: TaskID): seq<Action>
  {
    [Accept(id, Sample(1)), Invoke(id, Recover), Begin(0), Store(0), Do(0, Fail("")), Store(0),
     Invoke(id, Resume("")), Store(2), Store(1), Begin(4), Store(4)]
  }

  /** The overspending schedule as far as both reads of the queued record. */
  function BothRead(id: TaskID): State
  {
    Step(Step(INITIAL, Accept(id, Sample(1))), Invoke(id, Recover))
  }

  /** ... and as far as the resumption. */
  function ResumedAgain(id: TaskID): State
  {
    FailAndResume(ReadAndStore(BothRead(id), Begin(0), 0), 0, id)
  }

  /** Starting adds one row and one attempt. */
  lemma StartCounts(s: State, i: nat, id: TaskID)
    requires i < |s.threads| && s.threads[i].Execution? && s.threads[i].task.id == id && s.threads[i].phase.Spawned?
    requires id in s.db.tasks && s.db.tasks[id].state == QueuedState
    requires s.db.tasks[id].maxAttempts > 0 ==> s.db.tasks[id].attempt < s.db.tasks[id].maxAttempts
    ensures var after := ReadAndStore(s, Begin(i), i);
      && StartedRows(after, id) == StartedRows(s, id) + 1
      && after.threads == s.threads[i := s.threads[i].(phase := Working)]
      && after.db.tasks
         == s.db.tasks[id := s.db.tasks[id].(state := RunningState, attempt := s.db.tasks[id].attempt + 1)]
  {
    StartSucceeds(s, i, id);
    CountAppend(s.db.audit, AuditRow(id, Started, Some(QueuedState), RunningState, ""), RowOfStarted(id));
  }

  /** Failing and being resumed adds neither, and spawns the next execution. */
  lemma FailAndResumeCounts(s: State, i: nat, id: TaskID)
    requires i < |s.threads| && s.threads[i].Execution? && s.threads[i].task.id == id && s.threads[i].phase.Working?
    requires id in s.db.tasks && s.db.tasks[id].state == RunningState
    ensures var after := FailAndResume(s, i, id); var next := s.db.tasks[id].(state := QueuedState, error := "");
      && StartedRows(after, id) == StartedRows(s, id)
      && after.threads
         == s.threads[i := s.threads[i].(phase := Ended(Dropped))] + [Gone, Execution(TaskFor(id, next), Spawned)]
      && after.db.tasks == s.db.tasks[id := next]
  {
    hide Step;
    hide ReadAndStore;
    FailureIsStored(s, i, id);
    var failed := ReadAndStore(s, Do(i, Fail("")), i);
    CountAppend(s.db.audit, AuditRow(id, ExecutionFailed, Some(RunningState), FailedState, ""), RowOfStarted(id));
    ResumeIsStored(failed, id);
    CountAppend(failed.db.audit, AuditRow(id, Resumed, Some(FailedState), QueuedState, ""), RowOfStarted(id));
  }

  lemma BothReadState(id: TaskID)
    ensures BothRead(id) == State(
      Database(map[id := NewRecord(Sample(1))], [AuditRow(id, Created, None, QueuedState, "")], []),
      [Execution(TaskFor(id, NewRecord(Sample(1))), Spawned), Handler(id, Recover, NewRecord(Sample(1)))])
    ensures StartedRows(BothRead(id), id) == 0
  {
    CountAppend([], AuditRow(id, Created, None, QueuedState, ""), RowOfStarted(id));
    assert [] + [AuditRow(id, Created, None, QueuedState, "")] == [AuditRow(id, Created, None, QueuedState, "")];
  }

  lemma ResumedAgainState(id: TaskID)
    ensures var s := ResumedAgain(id);
      && |s.threads| == 4 && s.threads[1] == Handler(id, Recover, NewRecord(Sample(1)))
      && id in s.db.tasks && s.db.tasks[id].state == QueuedState
      && StartedRows(s, id) == 1
  {
    BothReadState(id);
    hide Step;
    hide BothRead;
    hide StartedRows;
    StartCounts(BothRead(id), 0, id);
    FailAndResumeCounts(ReadAndStore(BothRead(id), Begin(0), 0), 0, id);
  }

  /**
   A recovery reads the queued task, an execution starts it and fails, an operator resumes it, and only
   then the recovery stores: the state is queued again, so its compare-and-set succeeds and puts the old
   attempt count back. A budget of one start is then spent twice.
   */
  lemma StaleRecoveryBreaksBudget(id: TaskID)
    ensures !WithinBudget(Run(INITIAL, Overspend(id)), id)
  {
    var r := NewRecord(Sample(1));
    ResumedAgainState(id);
    var s4 := ResumedAgain(id);
    StaleRecoveryRewinds(s4, 1, id, r);
    var s5 := Step(s4, Store(1));
    CountAppend(s4.db.audit, AuditRow(id, Recovered, Some(QueuedState), QueuedState, "process startup recovery"),
                RowOfStarted(id));
    StartCounts(s5, 4, id);
    OverspendUnfolds(id);
  }

  function RowOfStarted(id: TaskID): AuditRow -> bool
  {
    GateSafety.RowOf(id, Started)
  }

  lemma OverspendUnfolds(id: TaskID)
    ensures Run(INITIAL, Overspend(id)) == ReadAndStore(Step(ResumedAgain(id), Store(1)), Begin(4), 4)
  {
    hide Step;
    hide Run;
    var all := Overspend(id);
    assert |ReadAndStore(BothRead(id), Begin(0), 0).threads| == 2 by {
      BothReadState(id);
      StartCounts(BothRead(id), 0, id);
    }
    assert Run(INITIAL, []) == INITIAL by {
      RunEmpty();
    }
    RunPairs(all[..2], all[2], all[3]);
    RunPairs(all[..4], all[4], all[5]);
    RunPairs(all[..6], all[6], all[7]);
    RunPairs(all[..9], all[9], all[10]);
    RunNext(all[..8], all[8]);
    RunPairs([], all[0], all[1]);
    assert [] + [all[0], all[1]] == all[..2];
    assert all[..2] + [all[2], all[3]] == all[..4];
    assert all[..4] + [all[4], all[5]] == all[..6];
    assert all[..6] + [all[6], all[7]] == all[..8];
    assert all[..8] + [all[8]] == all[..9];
    assert all[..9] + [all[9], all[10]] == all;
  }

  lemma RunEmpty()
    ensures Run(INITIAL, []) == INITIAL
  {
  }

  lemma RunPairs(actions: seq<Action>, a: Action, b: Action)
    ensures Run(INITIAL, actions + [a, b]) == Step(Step(Run(INITIAL, actions), a), b)
  {
    RunNext(actions, a);
    RunNext(actions + [a], b);
    hide Step;
    hide Run;
    assert actions + [a] + [b] == actions + [a, b];
  }
}
