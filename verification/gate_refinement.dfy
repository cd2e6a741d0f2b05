/**
 The handlers of GateService run the schedules of GateMachine: what a handler leaves in the tables is
 what its thread's read, the steps in between and its thread's store (or abort) leave.
 */
module GateRefinement {
  import opened Sequences
  import opened GateModel
  import opened GateMachine
  import opened GateService

  /** A report that cannot be stored does not end its execution. */
  predicate GoesOn(t: Thread)
  {
    t.Execution? && t.phase.Writing? && !EndsExecution(t.phase.work)
  }

  /** The closing action of thread i, whose transaction did, or did not, fail. */
  function Closing(t: Thread, i: nat, verdict: Verdict): Action
  {
    if verdict != Errored then Store(i) else if GoesOn(t) then Forgo(i) else Abort(i)
  }

  /** Where a verdict leaves the thread: settled by its store, or put back or ended by its failure. */
  function Closed(t: Thread, verdict: Verdict): Thread
  {
    if verdict != Errored then Settle(t, verdict == Applied)
    else match t
      case Execution(task, phase) =>
        if GoesOn(t) then Execution(task, Working)
        else Execution(task, Ended(if phase.Spawned? || phase.Starting? then NeverStarted else Dropped))
      case _ => Gone
  }

  /** The execution that the handler's method starts when its write applied. */
  function Begun(id: TaskID, call: Call, plan: Option<Write>, verdict: Verdict): seq<Thread>
  {
    if plan.Some? && verdict == Applied && (call.Approve? || call.Resume? || call.Recover?)
    then [Execution(TaskFor(id, plan.value.record), Spawned)] else []
  }

  lemma ClosingStores(s: State, i: nat, fault: Fault)
    requires i < |s.threads| && WriteOf(s.threads[i]).Some?
    ensures var (db, verdict) := Attempted(s.db, s.db, fault, WriteOf(s.threads[i]));
      Step(s, Closing(s.threads[i], i, verdict))
      == State(db, s.threads[i := Closed(s.threads[i], verdict)]
                   + (if verdict == Applied then SpawnedBy(s.threads[i], WriteOf(s.threads[i]).value) else []))
  {
    var t := s.threads[i];
    var verdict := Attempted(s.db, s.db, fault, WriteOf(t)).1;
    var threads := s.threads[i := Closed(t, verdict)];
    WriteShape(t);
    assert threads + [] == threads;
    assert t.Execution? ==> t.phase.Starting? || t.phase.Writing?;
    hide PlanCall;
    hide PlanStart;
    hide PlanWork;
  }

  /** Accepting is one step: the task and, when it is queued, its execution. */
  lemma AcceptIsStep(s: State, id: TaskID, d: Dispatch)
    ensures var after := Step(s, Accept(id, d));
      && after.db == (if id in s.db.tasks then s.db else Create(s.db, id, NewRecord(d)))
      && after.threads == s.threads + (if id !in s.db.tasks && NewRecord(d).state == QueuedState
                                       then [Execution(TaskFor(id, NewRecord(d)), Spawned)] else [])
  {
    assert s.threads + [] == s.threads;
  }

  /**
   An operator call, a recovery or an outside projection, with any schedule between its read and its store:
   the tables and the executions it leaves are those of the machine.
   */
  lemma CallRunsSchedule(s: State, id: TaskID, call: Call, between: seq<Action>, fault: Fault)
    requires var i := |s.threads|; var mid := Run(Step(s, Invoke(id, call)), between);
      CallPlan(s.db, id, call).Some? ==> i < |mid.threads| && mid.threads[i] == Handler(id, call, s.db.tasks[id])
    ensures var i := |s.threads|; var mid := Run(Step(s, Invoke(id, call)), between);
      var plan := CallPlan(s.db, id, call);
      var (db, verdict) := Attempted(s.db, mid.db, fault, plan);
      if verdict == Skipped then Step(s, Invoke(id, call)) == s && db == s.db
      else Run(s, [Invoke(id, call)] + between + [Closing(mid.threads[i], i, verdict)])
           == State(db, mid.threads[i := Gone] + Begun(id, call, plan, verdict))
  {
    var i := |s.threads|;
    var mid := Run(Step(s, Invoke(id, call)), between);
    var plan := CallPlan(s.db, id, call);
    if plan.Some? {
      assert WriteOf(Handler(id, call, s.db.tasks[id])) == plan;
      assert plan.value.id == id by {
        WriteShape(Handler(id, call, s.db.tasks[id]));
      }
      hide PlanCall;
      hide CallPlan;
      hide WriteOf;
      hide Run;
      hide Step;
      var verdict := Attempted(s.db, mid.db, fault, plan).1;
      Compose(s, Invoke(id, call), between, Closing(mid.threads[i], i, verdict));
      ClosingStores(mid, i, fault);
      assert (if verdict == Applied then SpawnedBy(mid.threads[i], plan.value) else [])
             == Begun(id, call, plan, verdict);
    } else {
      hide Run;
    }
  }

  lemma Compose(s: State, first: Action, between: seq<Action>, last: Action)
    ensures Run(s, [first] + between + [last]) == Step(Run(Step(s, first), between), last)
  {
    var all := [first] + between + [last];
    assert all[..|all| - 1] == [first] + between;
    RunAppend(s, [first], between);
    assert [first][..0] == [];
    assert Run(s, []) == s;
    assert Run(s, [first]) == Step(s, first);
  }

  /** An execution taking its task: read, any schedule, store. It works afterwards exactly when its start committed. */
  lemma BeginRunsSchedule(s: State, i: nat, between: seq<Action>, fault: Fault)
    requires i < |s.threads| && s.threads[i].Execution? && s.threads[i].phase.Spawned?
    requires var task := s.threads[i].task; var mid := Run(Step(s, Begin(i)), between);
      StartPlan(s.db, task.id).Some? ==>
        i < |mid.threads| && mid.threads[i] == Execution(task, Starting(s.db.tasks[task.id]))
    ensures var task := s.threads[i].task; var mid := Run(Step(s, Begin(i)), between);
      var plan := StartPlan(s.db, task.id);
      var (db, verdict) := Attempted(s.db, mid.db, fault, plan);
      if verdict == Skipped then Step(s, Begin(i)) == SetPhase(s, i, Ended(NeverStarted)) && db == s.db
      else Run(s, [Begin(i)] + between + [Closing(mid.threads[i], i, verdict)])
           == State(db, mid.threads[i := Execution(task, if verdict == Applied && plan.value.row.action == Started
                                                         then Working else Ended(NeverStarted))])
  {
    var task, mid := s.threads[i].task, Run(Step(s, Begin(i)), between);
    var plan := StartPlan(s.db, task.id);
    if plan.Some? {
      assert WriteOf(Execution(task, Starting(s.db.tasks[task.id]))) == plan;
      hide Run;
      hide Step;
      Compose(s, Begin(i), between, Closing(mid.threads[i], i, Attempted(s.db, mid.db, fault, plan).1));
      ClosingStores(mid, i, fault);
      assert forall threads: seq<Thread> :: threads + [] == threads;
    }
  }

  /** What a piece of work leaves of its execution: another phase of work, or its outcome. */
  function Worked(task: Task, work: Work, verdict: Verdict): Thread
  {
    if !EndsExecution(work) then Execution(task, Working)
    else Execution(task, Ended(if verdict == Applied && work.Finish? then Completed else Dropped))
  }

  /** A started execution's progress report, event or outcome: read, any schedule, store. */
  lemma WorkRunsSchedule(s: State, i: nat, work: Work, between: seq<Action>, fault: Fault)
    requires i < |s.threads| && s.threads[i].Execution? && s.threads[i].phase.Working?
    requires var task := s.threads[i].task; var mid := Run(Step(s, Do(i, work)), between);
      WorkPlan(s.db, task, work).Some? ==>
        i < |mid.threads| && mid.threads[i] == Execution(task, Writing(work, s.db.tasks[task.id]))
    ensures var task := s.threads[i].task; var mid := Run(Step(s, Do(i, work)), between);
      var (db, verdict) := Attempted(s.db, mid.db, fault, WorkPlan(s.db, task, work));
      if verdict == Skipped then
        && Step(s, Do(i, work)) == (if EndsExecution(work) then SetPhase(s, i, Ended(Dropped)) else s)
        && db == s.db
      else Run(s, [Do(i, work)] + between + [Closing(mid.threads[i], i, verdict)])
           == State(db, mid.threads[i := Worked(task, work, verdict)])
  {
    var task, mid := s.threads[i].task, Run(Step(s, Do(i, work)), between);
    var plan := WorkPlan(s.db, task, work);
    if plan.Some? {
      assert WriteOf(Execution(task, Writing(work, s.db.tasks[task.id]))) == plan;
      hide PlanWork;
      hide WorkPlan;
      hide WriteOf;
      hide Run;
      hide Step;
      Compose(s, Do(i, work), between, Closing(mid.threads[i], i, Attempted(s.db, mid.db, fault, plan).1));
      ClosingStores(mid, i, fault);
      assert forall threads: seq<Thread> :: threads + [] == threads;
    }
  }

  // ---- Recovery at startup ----

  type Entry = (TaskID, TaskRecord)

  function PlanOf(entry: Entry): Option<Write>
  {
    PlanCall(entry.0, Recover, entry.1)
  }

  /** The listing reads every task at once. */
  function Reads(entries: seq<Entry>): seq<Action>
  {
    if entries == [] then [] else Reads(entries[..|entries| - 1]) + [Invoke(entries[|entries| - 1].0, Recover)]
  }

  /** The handlers it leaves, one for each task that may be requeued. */
  function Readers(entries: seq<Entry>): seq<Thread>
  {
    if entries == [] then []
    else
      var n := |entries| - 1;
      Readers(entries[..n]) + (if PlanOf(entries[n]).Some? then [Handler(entries[n].0, Recover, entries[n].1)] else [])
  }

  lemma {:induction false} ReadsAtOnce(s: State, entries: seq<Entry>)
    requires forall e <- entries :: e.0 in s.db.tasks && s.db.tasks[e.0] == e.1
    ensures Run(s, Reads(entries)) == s.(threads := s.threads + Readers(entries))
  {
    if entries == [] {
      assert s.threads + [] == s.threads;
    } else {
      var n := |entries| - 1;
      ReadsAtOnce(s, entries[..n]);
      assert entries[n] in entries;
      RunAppend(s, Reads(entries[..n]), [Invoke(entries[n].0, Recover)]);
      var mid := s.(threads := s.threads + Readers(entries[..n]));
      assert [Invoke(entries[n].0, Recover)][..0] == [];
      assert Run(mid, [Invoke(entries[n].0, Recover)]) == Step(mid, Invoke(entries[n].0, Recover));
      hide Run;
      hide PlanCall;
    }
  }

  /** The handler of entry k, among the threads the listing added. */
  function HandlerOf(s: State, entries: seq<Entry>, k: nat): nat
    requires k < |entries|
  {
    |s.threads| + |Readers(entries[..k])|
  }

  /** The listing, and then for each of the first k entries any schedule followed by its handler's store. */
  function RecoverySchedule(s: State, entries: seq<Entry>, k: nat, between: nat -> seq<Action>,
                            faults: nat -> Fault): seq<Action>
    requires k <= |entries|
  {
    if k == 0 then Reads(entries)
    else
      var before := RecoverySchedule(s, entries, k - 1, between, faults);
      if PlanOf(entries[k - 1]).None? then before
      else
        var mid, i := Run(s, before + between(k - 1)), HandlerOf(s, entries, k - 1);
        if i >= |mid.threads| then before
        else
          var verdict := Attempted(mid.db, mid.db, faults(k - 1), PlanOf(entries[k - 1])).1;
          before + between(k - 1) + [Closing(mid.threads[i], i, verdict)]
  }

  /** What lies between leaves entry k's handler alone, and world(k) is what its transaction finds. */
  ghost predicate Undisturbed(s: State, entries: seq<Entry>, k: nat, between: nat -> seq<Action>, faults: nat -> Fault,
                              world: nat -> Database)
    requires k < |entries|
  {
    PlanOf(entries[k]).Some? ==>
      var mid, i := Run(s, RecoverySchedule(s, entries, k, between, faults) + between(k)), HandlerOf(s, entries, k);
      i < |mid.threads| && mid.threads[i] == Handler(entries[k].0, Recover, entries[k].1) && world(k) == mid.db
  }

  /** The machine after the first k entries. */
  function Recovered(s: State, entries: seq<Entry>, k: nat, between: nat -> seq<Action>, faults: nat -> Fault): State
    requires k <= |entries|
  {
    Run(s, RecoverySchedule(s, entries, k, between, faults))
  }

  /** The last of k entries changed the threads by its handler's end and, when its write applied, an execution. */
  ghost predicate Requeues(s: State, entries: seq<Entry>, k: nat, between: nat -> seq<Action>, faults: nat -> Fault,
                           world: nat -> Database)
    requires 0 < k <= |entries|
  {
    var (id, listed) := entries[k - 1];
    var after := Recovered(s, entries, k, between, faults);
    if PlanOf(entries[k - 1]).None? then after == Recovered(s, entries, k - 1, between, faults)
    else
      var mid := Run(s, RecoverySchedule(s, entries, k - 1, between, faults) + between(k - 1));
      var i := HandlerOf(s, entries, k - 1);
      var verdict := Attempted(world(k - 1), world(k - 1), faults(k - 1), PlanOf(entries[k - 1])).1;
      && i < |mid.threads|
      && after.threads == mid.threads[i := Gone]
                          + (if verdict == Applied then [Execution(TaskFor(id, listed.(state := QueuedState)), Spawned)]
                             else [])
  }

  /** The schedule's last store is what the machine's recovery of entry k - 1 commits. */
  lemma RecoveryStores(s: State, entries: seq<Entry>, k: nat, between: nat -> seq<Action>, faults: nat -> Fault,
                       world: nat -> Database)
    requires 0 < k <= |entries| && Undisturbed(s, entries, k - 1, between, faults, world)
    ensures PlanOf(entries[k - 1]).Some? ==>
      Recovered(s, entries, k, between, faults).db
      == Attempted(world(k - 1), world(k - 1), faults(k - 1), PlanOf(entries[k - 1])).0
    ensures Requeues(s, entries, k, between, faults, world)
  {
    hide Run;
    hide Step;
    var plan := PlanOf(entries[k - 1]);
    if plan.Some? {
      var upTo := RecoverySchedule(s, entries, k - 1, between, faults) + between(k - 1);
      var mid, i := Run(s, upTo), HandlerOf(s, entries, k - 1);
      assert WriteOf(mid.threads[i]) == plan;
      var verdict := Attempted(mid.db, mid.db, faults(k - 1), plan).1;
      var closing := Closing(mid.threads[i], i, verdict);
      assert RecoverySchedule(s, entries, k, between, faults) == upTo + [closing];
      assert SpawnedBy(mid.threads[i], plan.value)
             == [Execution(TaskFor(entries[k - 1].0, entries[k - 1].1.(state := QueuedState)), Spawned)];
      assert Closed(mid.threads[i], verdict) == Gone;
      hide PlanCall;
      hide WriteOf;
      hide HandlerOf;
      hide RecoverySchedule;
      hide SpawnedBy;
      hide Closed;
      hide Attempted;
      ClosingStores(mid, i, faults(k - 1));
      RunOne(s, upTo, closing);
    }
  }

  lemma {:induction false} RecoveryRunsTables(s: State, entries: seq<Entry>, k: nat, between: nat -> seq<Action>,
                                              faults: nat -> Fault, world: nat -> Database)
    requires k <= |entries| && forall e <- entries :: e.0 in s.db.tasks && s.db.tasks[e.0] == e.1
    requires forall j: nat :: j < k ==> Undisturbed(s, entries, j, between, faults, world)
    ensures Recovered(s, entries, k, between, faults).db == Recoveries(s.db, entries[..k], world, faults).0
  {
    if k == 0 {
      ReadsAtOnce(s, entries);
    } else {
      hide Run;
      hide Step;
      hide PlanCall;
      hide Requeues;
      RecoveryRunsTables(s, entries, k - 1, between, faults, world);
      NextRecovery(s.db, entries, k - 1, world, faults);
      assert Undisturbed(s, entries, k - 1, between, faults, world);
      hide Recoveries;
      if PlanOf(entries[k - 1]).Some? {
        RecoveryStores(s, entries, k, between, faults, world);
        hide Recovered;
      }
    }
  }

  /**
   RecoverPending leaves the tables of one schedule of the machine, and entry after entry the threads: its
   handler is gone, and the execution of the listed record is there exactly when its write applied.
   */
  lemma RecoveryRunsSchedule(s: State, entries: seq<Entry>, k: nat, between: nat -> seq<Action>,
                             faults: nat -> Fault, world: nat -> Database)
    requires k <= |entries| && forall e <- entries :: e.0 in s.db.tasks && s.db.tasks[e.0] == e.1
    requires forall j: nat :: j < k ==> Undisturbed(s, entries, j, between, faults, world)
    ensures Recovered(s, entries, k, between, faults).db == Recoveries(s.db, entries[..k], world, faults).0
    ensures Recovered(s, entries, 0, between, faults) == s.(threads := s.threads + Readers(entries))
    ensures forall j :: 0 < j <= k ==> Requeues(s, entries, j, between, faults, world)
  {
    RecoveryRunsTables(s, entries, k, between, faults, world);
    ReadsAtOnce(s, entries);
    hide Requeues;
    hide Run;
    forall j | 0 < j <= k ensures Requeues(s, entries, j, between, faults, world) {
      assert Undisturbed(s, entries, j - 1, between, faults, world);
      RecoveryStores(s, entries, j, between, faults, world);
    }
  }

  lemma RunOne(s: State, actions: seq<Action>, a: Action)
    ensures Run(s, actions + [a]) == Step(Run(s, actions), a)
  {
    assert (actions + [a])[..|actions|] == actions;
  }
}
