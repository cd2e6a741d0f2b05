/** The attempt budget over every interleaving: what the counter loses to stale stores, and when that matters. */
module GateBudget {
  import opened Sequences
  import opened TaskEvents
  import opened GateModel
  import opened GateMachine
  import opened GateIdentity
  import opened GateAttempts
  import GateSafety

  // ---- The account of starts ----

  /** The thread whose store on id succeeds in this step. */
  function StoredBy(s: State, a: Action, id: TaskID): Option<Thread>
  {
    if a.Store? && a.thread < |s.threads| && WriteOf(s.threads[a.thread]).Some?
       && WriteOf(s.threads[a.thread]).value.id == id && Applies(s.db, WriteOf(s.threads[a.thread]).value)
    then Some(s.threads[a.thread]) else None
  }

  function RowStored(s: State, a: Action, id: TaskID): Option<AuditAction>
  {
    var t := StoredBy(s, a, id);
    if t.Some? && WriteOf(t.value).Some? then Some(WriteOf(t.value).value.row.action) else None
  }

  /** The attempt count that the step's store was computed from. */
  function ReadAttempt(s: State, a: Action, id: TaskID): int
    requires id in s.db.tasks
  {
    var t := StoredBy(s, a, id);
    if t.Some? && SnapshotOf(t.value).Some? then SnapshotOf(t.value).value.attempt else s.db.tasks[id].attempt
  }

  /** How many attempts the step takes out of the counter by storing an old count. */
  function ErasedBy(s: State, a: Action, id: TaskID): int
  {
    if id in s.db.tasks then s.db.tasks[id].attempt - ReadAttempt(s, a, id) else 0
  }

  /** The step commits a start that the budget check refused; it has raised the counter all the same. */
  predicate Refuses(s: State, a: Action, id: TaskID)
  {
    StoredBy(s, a, id).Some? && Starts(StoredBy(s, a, id).value) && RowStored(s, a, id) == Some(ExecutionFailed)
  }

  function Erased(actions: seq<Action>, id: TaskID): int
  {
    if actions == [] then 0
    else
      var n := |actions| - 1;
      Erased(actions[..n], id) + ErasedBy(Run(INITIAL, actions[..n]), actions[n], id)
  }

  function Refused(actions: seq<Action>, id: TaskID): nat
  {
    if actions == [] then 0
    else
      var n := |actions| - 1;
      Refused(actions[..n], id) + (if Refuses(Run(INITIAL, actions[..n]), actions[n], id) then 1 else 0)
  }

  function AttemptOf(s: State, id: TaskID): int
  {
    if id in s.db.tasks then s.db.tasks[id].attempt else 0
  }

  predicate Accounts(s: State, a: Action, id: TaskID)
  {
    var after := Step(s, a);
    && StartedRows(after, id) + (if Refuses(s, a, id) then 1 else 0) - StartedRows(s, id)
       == AttemptOf(after, id) - AttemptOf(s, id) + ErasedBy(s, a, id)
    && (StartedRows(after, id) != StartedRows(s, id) ==> RowStored(s, a, id) == Some(Started))
    && (RowStored(s, a, id) == Some(Started) ==>
          id in s.db.tasks && AttemptOf(after, id) == ReadAttempt(s, a, id) + 1 && !Refuses(s, a, id))
    && (id !in after.db.tasks ==> StartedRows(after, id) == 0)
  }

  /** A store that does not succeed over id adds no row to it and leaves its record. */
  lemma StoreElsewhere(s: State, i: nat, id: TaskID)
    requires i < |s.threads| && WriteOf(s.threads[i]).Some? && StoredBy(s, Store(i), id).None?
    ensures var after := StoreStep(s, i, WriteOf(s.threads[i]).value);
      && StartedRows(after, id) == StartedRows(s, id) && AttemptOf(after, id) == AttemptOf(s, id)
      && (id in after.db.tasks <==> id in s.db.tasks)
  {
    var w := WriteOf(s.threads[i]).value;
    WriteShape(s.threads[i]);
    GateSafety.CommitCounts(s.db, w, id);
    hide CountIf;
    hide WriteOf;
  }

  lemma AcceptElsewhere(s: State, other: TaskID, d: Dispatch, id: TaskID)
    ensures var after := Step(s, Accept(other, d));
      StartedRows(after, id) == StartedRows(s, id) && (id in s.db.tasks || other == id || id !in after.db.tasks)
      && (id in s.db.tasks ==> id in after.db.tasks) && AttemptOf(after, id) == AttemptOf(s, id)
  {
    CountAppend(s.db.audit, AuditRow(other, Created, None, NewRecord(d).state, ""), GateSafety.RowOf(id, Started));
  }

  /** A step that stores nothing over id leaves its account alone. */
  lemma QuietStepAccounts(s: State, a: Action, id: TaskID)
    requires id !in s.db.tasks ==> StartedRows(s, id) == 0
    requires StoredBy(s, a, id).None?
    ensures Accounts(s, a, id)
  {
    if a.Accept? {
      AcceptElsewhere(s, a.id, a.dispatch, id);
      hide Step;
    } else if a.Store? && a.thread < |s.threads| && WriteOf(s.threads[a.thread]).Some? {
      StoreElsewhere(s, a.thread, id);
      hide StoreStep;
      hide WriteOf;
    } else {
      assert Step(s, a).db == s.db;
      hide Step;
    }
  }

  lemma StoreAccounts(s: State, a: Action, id: TaskID)
    requires StoredBy(s, a, id).Some?
    ensures Accounts(s, a, id)
  {
    var t := StoredBy(s, a, id).value;
    var w := WriteOf(t).value;
    WriteCounts(t);
    StoredCounts(s, a, id);
    assert id in s.db.tasks;
    hide Step;
    hide WriteOf;
    hide SnapshotOf;
    hide StartedRows;
    hide StoredBy;
    hide Starts;
  }

  /** What a store that succeeds over id leaves of it. */
  lemma StoredCounts(s: State, a: Action, id: TaskID)
    requires StoredBy(s, a, id).Some?
    ensures var w := WriteOf(StoredBy(s, a, id).value).value; var after := Step(s, a);
      && id in after.db.tasks && after.db.tasks[id] == w.record
      && StartedRows(after, id) == StartedRows(s, id) + (if w.row.action == Started then 1 else 0)
  {
    var t := StoredBy(s, a, id).value;
    var w := WriteOf(t).value;
    assert GateSafety.CommitShape(w) && w.row.taskID == id by {
      WriteShape(t);
    }
    GateSafety.CommitCounts(s.db, w, id);
    assert Step(s, a).db == Commit(s.db, w);
    hide Step;
    hide WriteOf;
    hide CountIf;
  }

  /** One step's starts and refusals are what it adds to the counter and what it erases from it. */
  lemma StepAccounts(s: State, a: Action, id: TaskID)
    requires id !in s.db.tasks ==> StartedRows(s, id) == 0
    ensures Accounts(s, a, id)
  {
    if StoredBy(s, a, id).Some? {
      StoreAccounts(s, a, id);
    } else {
      QuietStepAccounts(s, a, id);
    }
  }

  /**
   In every interleaving: the "started" rows and the refused starts of a task are its attempt count and
   the attempts that stale stores have erased from it.
   */
  lemma {:induction false} StartsAreConserved(actions: seq<Action>, id: TaskID)
    ensures var s := Run(INITIAL, actions);
      && StartedRows(s, id) + Refused(actions, id) == AttemptOf(s, id) + Erased(actions, id)
      && (id !in s.db.tasks ==> StartedRows(s, id) == 0)
  {
    if actions != [] {
      hide Step;
      hide StartedRows;
      hide AttemptOf;
      hide ErasedBy;
      hide Refuses;
      var n := |actions| - 1;
      StartsAreConserved(actions[..n], id);
      StepAccounts(Run(INITIAL, actions[..n]), actions[n], id);
    }
  }

  // ---- When the budget holds ----

  predicate AlwaysWithinBudget(actions: seq<Action>, id: TaskID)
  {
    WithinBudget(Run(INITIAL, actions), id) && (actions != [] ==> AlwaysWithinBudget(actions[..|actions| - 1], id))
  }

  /**
   The budget check of a start that commits, corrected: the count it read, raised by one, plus what
   has been erased so far, less the refused starts, is within the budget.
   */
  predicate Affords(actions: seq<Action>, id: TaskID)
    requires actions != []
  {
    var n := |actions| - 1;
    var s := Run(INITIAL, actions[..n]);
    id in s.db.tasks && s.db.tasks[id].maxAttempts > 0 && RowStored(s, actions[n], id) == Some(Started) ==>
      ReadAttempt(s, actions[n], id) + 1 + Erased(actions, id) - Refused(actions[..n], id) <= s.db.tasks[id].maxAttempts
  }

  predicate AlwaysAffords(actions: seq<Action>, id: TaskID)
  {
    actions != [] ==> AlwaysAffords(actions[..|actions| - 1], id) && Affords(actions, id)
  }

  lemma BudgetStep(actions: seq<Action>, id: TaskID)
    requires actions != []
    requires WithinBudget(Run(INITIAL, actions[..|actions| - 1]), id)
    ensures WithinBudget(Run(INITIAL, actions), id) <==> Affords(actions, id)
  {
    var n := |actions| - 1;
    var s, after := Run(INITIAL, actions[..n]), Run(INITIAL, actions);
    StartsAreConserved(actions[..n], id);
    StartsAreConserved(actions, id);
    StepAccounts(s, actions[n], id);
    RunIsConsistent(actions[..n]);
    StepKeepsConsistent(s, actions[n]);
    hide Step;
    hide StartedRows;
    hide ReadAttempt;
    hide RowStored;
    hide Refuses;
    hide Consistent;
  }

  /**
   Throughout a schedule a task stays within its positive MaxAttempts if and only if each start that
   commits could afford it: the exact price of the counter that stale snapshots rewind.
   */
  lemma {:induction false} BudgetHoldsIff(actions: seq<Action>, id: TaskID)
    ensures AlwaysWithinBudget(actions, id) <==> AlwaysAffords(actions, id)
  {
    if actions != [] {
      hide Step;
      hide Affords;
      hide WithinBudget;
      BudgetHoldsIff(actions[..|actions| - 1], id);
      if AlwaysWithinBudget(actions[..|actions| - 1], id) {
        BudgetStep(actions, id);
      }
    } else {
      assert StartedRows(INITIAL, id) == 0;
    }
  }

  // ---- A task of one process that outspends its budget ----

  const REPORT := Projection("e1", 1, Progress, "", "", "working", "")

  /**
   A task with two attempts starts; an outside projection reads it and is slow; the task fails, is resumed
   and starts again; the projection stores over the same state and puts the first count back; the task
   fails, is resumed and starts a third time.
   */
  function Revival(id: TaskID): seq<Action>
  {
    Opening(id) + Round(id, 0, 2) + [Store(1)] + Round(id, 3, 4)
  }

  function Opening(id: TaskID): seq<Action>
  {
    [Accept(id, Sample(2)), Begin(0), Store(0), Invoke(id, Project(REPORT))]
  }

  /** The working execution i fails, thread j resumes the task, and the execution after it starts. */
  function Round(id: TaskID, i: nat, j: nat): seq<Action>
  {
    [Do(i, Fail("")), Store(i)] + [Invoke(id, Resume("")), Store(j)] + [Begin(j + 1), Store(j + 1)]
  }

  function FirstStart(id: TaskID): State
  {
    Step(ReadAndStore(Step(INITIAL, Accept(id, Sample(2))), Begin(0), 0), Invoke(id, Project(REPORT)))
  }

  function SecondStart(id: TaskID): State
  {
    ReadAndStore(FailAndResume(FirstStart(id), 0, id), Begin(3), 3)
  }

  function Rewound(id: TaskID): State
  {
    Step(SecondStart(id), Store(1))
  }

  function ThirdStart(id: TaskID): State
  {
    ReadAndStore(FailAndResume(Rewound(id), 3, id), Begin(5), 5)
  }

  lemma AcceptedState(id: TaskID)
    ensures var s := Step(INITIAL, Accept(id, Sample(2)));
      && s.db.tasks == map[id := NewRecord(Sample(2))]
      && s.threads == [Execution(TaskFor(id, NewRecord(Sample(2))), Spawned)]
      && StartedRows(s, id) == 0
  {
    var s := Step(INITIAL, Accept(id, Sample(2)));
    var row := AuditRow(id, Created, None, QueuedState, "");
    CountAppend([], row, GateSafety.RowOf(id, Started));
    assert s.db.audit == [] + [row];
    assert s.threads == [] + [Execution(TaskFor(id, NewRecord(Sample(2))), Spawned)];
  }

  lemma FirstStartState(id: TaskID)
    ensures var s := FirstStart(id); var r := NewRecord(Sample(2)).(state := RunningState, attempt := 1);
      && s.db.tasks == map[id := r] && StartedRows(s, id) == 1
      && s.threads == [Execution(TaskFor(id, NewRecord(Sample(2))), Working), Handler(id, Project(REPORT), r)]
  {
    AcceptedState(id);
    var accepted := Step(INITIAL, Accept(id, Sample(2)));
    StartCounts(accepted, 0, id);
    var started := ReadAndStore(accepted, Begin(0), 0);
    var r := NewRecord(Sample(2)).(state := RunningState, attempt := 1);
    assert started.db.tasks == map[id := r];
    ProjectionIsRead(started, id, r);
    hide Step;
  }

  lemma ProjectionIsRead(s: State, id: TaskID, r: TaskRecord)
    requires s.db.tasks == map[id := r] && r.state == RunningState && r.lastSequence < 1 && r.lastEventID != "e1"
    ensures Step(s, Invoke(id, Project(REPORT))) == s.(threads := s.threads + [Handler(id, Project(REPORT), r)])
  {
    assert PlanCall(id, Project(REPORT), r).Some?;
  }

  /** A projection that read an older running record succeeds over a newer one, and puts the old count back. */
  lemma StaleProjectionRewinds(s: State, i: nat, id: TaskID, r: TaskRecord)
    requires i < |s.threads| && s.threads[i] == Handler(id, Project(REPORT), r)
    requires r.state == RunningState && r.lastSequence < 1 && r.lastEventID != "e1"
    requires id in s.db.tasks && s.db.tasks[id].state == RunningState
    ensures var after := Step(s, Store(i));
      && after.threads == s.threads[i := Gone] && StartedRows(after, id) == StartedRows(s, id)
      && id in after.db.tasks && after.db.tasks[id].state == RunningState
      && after.db.tasks[id].attempt == r.attempt && after.db.tasks[id].maxAttempts == r.maxAttempts
  {
    var row := AuditRow(id, AgentReported(Progress), Some(RunningState), RunningState, "");
    CountAppend(s.db.audit, row, GateSafety.RowOf(id, Started));
    assert WriteOf(s.threads[i]).value.row == row;
    assert s.threads[i := Gone] + [] == s.threads[i := Gone];
  }

  lemma SecondStartState(id: TaskID)
    ensures var s := SecondStart(id); var r := NewRecord(Sample(2)).(state := RunningState, attempt := 1);
      && |s.threads| == 4 && s.threads[1] == Handler(id, Project(REPORT), r)
      && s.threads[3].Execution? && s.threads[3].task.id == id && s.threads[3].phase.Working?
      && id in s.db.tasks && s.db.tasks[id].state == RunningState && StartedRows(s, id) == 2
  {
    FirstStartState(id);
    hide Step;
    hide FirstStart;
    hide StartedRows;
    FailAndResumeCounts(FirstStart(id), 0, id);
    StartCounts(FailAndResume(FirstStart(id), 0, id), 3, id);
  }

  lemma ThirdStartState(id: TaskID)
    ensures var s := ThirdStart(id);
      id in s.db.tasks && s.db.tasks[id].maxAttempts == 2 && StartedRows(s, id) == 3
  {
    SecondStartState(id);
    StaleProjectionRewinds(SecondStart(id), 1, id, NewRecord(Sample(2)).(state := RunningState, attempt := 1));
    hide Step;
    hide SecondStart;
    hide StartedRows;
    FailAndResumeCounts(Rewound(id), 3, id);
    StartCounts(FailAndResume(Rewound(id), 3, id), 5, id);
  }

  lemma Regroup(before: seq<Action>, x: seq<Action>, y: seq<Action>, z: seq<Action>)
    ensures before + (x + y + z) == before + x + y + z
  {
  }

  lemma RunThreePairs(before: seq<Action>, a: Action, b: Action, c: Action, d: Action, e: Action, f: Action)
    ensures Run(INITIAL, before + ([a, b] + [c, d] + [e, f]))
            == Step(Step(Step(Step(Step(Step(Run(INITIAL, before), a), b), c), d), e), f)
  {
    hide Step;
    hide Run;
    Regroup(before, [a, b], [c, d], [e, f]);
    RunPairs(before, a, b);
    RunPairs(before + [a, b], c, d);
    RunPairs(before + [a, b] + [c, d], e, f);
  }

  lemma FailureKeepsThreads(s: State, i: nat, id: TaskID)
    requires i < |s.threads| && s.threads[i].Execution? && s.threads[i].task.id == id && s.threads[i].phase.Working?
    requires id in s.db.tasks && s.db.tasks[id].state == RunningState
    ensures |ReadAndStore(s, Do(i, Fail("")), i).threads| == |s.threads|
  {
    FailureIsStored(s, i, id);
  }

  lemma RoundUnfolds(before: seq<Action>, id: TaskID, s: State, i: nat)
    requires s == Run(INITIAL, before)
    requires i < |s.threads| && s.threads[i].Execution? && s.threads[i].task.id == id && s.threads[i].phase.Working?
    requires id in s.db.tasks && s.db.tasks[id].state == RunningState
    ensures var j := |s.threads|;
      Run(INITIAL, before + Round(id, i, j)) == ReadAndStore(FailAndResume(s, i, id), Begin(j + 1), j + 1)
  {
    var j := |s.threads|;
    hide Step;
    hide Run;
    FailureKeepsThreads(s, i, id);
    RunThreePairs(before, Do(i, Fail("")), Store(i), Invoke(id, Resume("")), Store(j), Begin(j + 1), Store(j + 1));
    assert Round(id, i, j)
        == [Do(i, Fail("")), Store(i)] + [Invoke(id, Resume("")), Store(j)] + [Begin(j + 1), Store(j + 1)];
    hide Round;
  }

  lemma OpeningUnfolds(id: TaskID)
    ensures Run(INITIAL, Opening(id)) == FirstStart(id)
  {
    var all := Opening(id);
    RunEmpty();
    hide Step;
    hide Run;
    RunNext([], all[0]);
    RunPairs([all[0]], all[1], all[2]);
    RunNext([all[0]] + [all[1], all[2]], all[3]);
    assert [] + [all[0]] == [all[0]];
    assert all == [all[0]] + [all[1], all[2]] + [all[3]];
  }

  /** The state after the projection's store: the second execution works on. */
  lemma RewoundState(id: TaskID)
    ensures var s := Rewound(id);
      && |s.threads| == 4 && s.threads[3].Execution? && s.threads[3].task.id == id && s.threads[3].phase.Working?
      && id in s.db.tasks && s.db.tasks[id].state == RunningState
  {
    SecondStartState(id);
    StaleProjectionRewinds(SecondStart(id), 1, id, NewRecord(Sample(2)).(state := RunningState, attempt := 1));
    hide Step;
    hide SecondStart;
    hide StartedRows;
  }

  lemma FirstRoundUnfolds(id: TaskID)
    ensures Run(INITIAL, Opening(id) + Round(id, 0, 2)) == SecondStart(id)
  {
    OpeningUnfolds(id);
    FirstStartState(id);
    var s := FirstStart(id);
    assert |s.threads| == 2 && s.threads[0].Execution? && s.threads[0].task.id == id && s.threads[0].phase.Working?;
    assert id in s.db.tasks && s.db.tasks[id].state == RunningState;
    hide Step;
    hide Run;
    hide FirstStart;
    hide ReadAndStore;
    hide FailAndResume;
    hide Round;
    hide Opening;
    hide StartedRows;
    RoundUnfolds(Opening(id), id, s, 0);
  }

  lemma RevivalUnfolds(id: TaskID)
    ensures Run(INITIAL, Revival(id)) == ThirdStart(id)
  {
    FirstRoundUnfolds(id);
    RewoundState(id);
    hide Step;
    hide Run;
    hide SecondStart;
    hide ReadAndStore;
    hide FailAndResume;
    hide Round;
    hide Opening;
    RunNext(Opening(id) + Round(id, 0, 2), Store(1));
    RoundUnfolds(Opening(id) + Round(id, 0, 2) + [Store(1)], id, Rewound(id), 3);
  }

  /** The schedule needs no second process: its only stale handler is an outside projection. */
  lemma StaleProjectionBreaksBudget(id: TaskID)
    ensures !WithinBudget(Run(INITIAL, Revival(id)), id) && !AlwaysAffords(Revival(id), id)
  {
    RevivalUnfolds(id);
    ThirdStartState(id);
    hide Run;
    hide ThirdStart;
    BudgetHoldsIff(Revival(id), id);
    assert !AlwaysWithinBudget(Revival(id), id);
  }
}
