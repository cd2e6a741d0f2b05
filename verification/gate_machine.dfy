/**
 Every interleaving of GateCore's handlers over the durable store.

 A handler reads its record in one step and commits its compare-and-set in another; between the two
 any other step may happen, so the snapshot a commit is computed from can be stale. A schedule is a
 list of actions, and an action that is not enabled does nothing.
 */
module GateMachine {
  import opened Sequences
  import opened GateModel

  datatype Outcome = NeverStarted | Completed | Dropped

  datatype Phase =
    | Spawned                                        // the goroutine exists and has read nothing
    | Starting(snapshot: TaskRecord)                 // read a queued record
    | Working                                        // committed "started"
    | Writing(work: Work, snapshot: TaskRecord)      // read the record for one piece of work
    | Ended(outcome: Outcome)

  datatype Thread =
    | Handler(id: TaskID, call: Call, snapshot: TaskRecord)
    | Execution(task: Task, phase: Phase)
    | Gone

  datatype State = State(db: Database, threads: seq<Thread>)

  const INITIAL := State(EMPTY_DATABASE, [])

  datatype Action =
    | Accept(id: TaskID, dispatch: Dispatch)
    | Invoke(id: TaskID, call: Call)      // an outside handler reads the record
    | Begin(thread: nat)                  // an execution reads the record it is to start
    | Do(thread: nat, work: Work)         // a started execution reads the record for some work
    | Store(thread: nat)                  // a thread holding a snapshot commits its write
    | Forgo(thread: nat)                  // the store of an execution's report fails, and the execution goes on
    | Abort(thread: nat)                  // an error or a lost process ends a thread

  /** The write a thread holds. */
  function WriteOf(t: Thread): Option<Write>
  {
    match t
    case Handler(id, call, snapshot) => PlanCall(id, call, snapshot)
    case Execution(task, Starting(snapshot)) => PlanStart(task.id, snapshot)
    case Execution(task, Writing(work, snapshot)) => PlanWork(task, work, snapshot)
    case _ => None
  }

  predicate EndsExecution(work: Work)
  {
    work.Fail? || work.Finish?
  }

  /** Where a thread goes after its transaction committed (applied) or lost the compare-and-set. */
  function Settle(t: Thread, applied: bool): Thread
  {
    match t
    case Execution(task, Starting(snapshot)) =>
      if applied && PlanStart(task.id, snapshot).Some? && PlanStart(task.id, snapshot).value.row.action == Started
      then Execution(task, Working) else Execution(task, Ended(NeverStarted))
    case Execution(task, Writing(work, _)) =>
      if !EndsExecution(work) then Execution(task, Working)
      else Execution(task, Ended(if applied && work.Finish? then Completed else Dropped))
    case _ => Gone
  }

  /** The execution that approval, resumption and recovery start once their write has committed. */
  function SpawnedBy(t: Thread, w: Write): seq<Thread>
  {
    if t.Handler? && (t.call.Approve? || t.call.Resume? || t.call.Recover?)
    then [Execution(TaskFor(w.id, w.record), Spawned)] else []
  }

  function StoreStep(s: State, i: nat, w: Write): State
    requires i < |s.threads|
  {
    var t := s.threads[i];
    State(
      Commit(s.db, w),
      s.threads[i := Settle(t, Applies(s.db, w))] + (if Applies(s.db, w) then SpawnedBy(t, w) else []))
  }

  function SetPhase(s: State, i: nat, phase: Phase): State
    requires i < |s.threads| && s.threads[i].Execution?
  {
    s.(threads := s.threads[i := s.threads[i].(phase := phase)])
  }

  function Step(s: State, a: Action): State
  {
    match a
    case Accept(id, d) =>
      if id in s.db.tasks then s
      else
        var record := NewRecord(d);
        State(Create(s.db, id, record),
              if record.state == QueuedState then s.threads + [Execution(TaskFor(id, record), Spawned)] else s.threads)
    case Invoke(id, call) =>
      if id in s.db.tasks && PlanCall(id, call, s.db.tasks[id]).Some?
      then s.(threads := s.threads + [Handler(id, call, s.db.tasks[id])]) else s
    case Begin(i) =>
      if i < |s.threads| && s.threads[i].Execution? && s.threads[i].phase.Spawned? then
        var id := s.threads[i].task.id;
        if id in s.db.tasks && PlanStart(id, s.db.tasks[id]).Some?
        then SetPhase(s, i, Starting(s.db.tasks[id])) else SetPhase(s, i, Ended(NeverStarted))
      else s
    case Do(i, work) =>
      if i < |s.threads| && s.threads[i].Execution? && s.threads[i].phase.Working? then
        var task := s.threads[i].task;
        if task.id in s.db.tasks && PlanWork(task, work, s.db.tasks[task.id]).Some?
        then SetPhase(s, i, Writing(work, s.db.tasks[task.id]))
        else if EndsExecution(work) then SetPhase(s, i, Ended(Dropped)) else s
      else s
    case Store(i) =>
      if i < |s.threads| && WriteOf(s.threads[i]).Some? then StoreStep(s, i, WriteOf(s.threads[i]).value) else s
    case Forgo(i) =>
      if i < |s.threads| && s.threads[i].Execution? && s.threads[i].phase.Writing?
        && !EndsExecution(s.threads[i].phase.work)
      then SetPhase(s, i, Working) else s
    case Abort(i) =>
      if i < |s.threads| then
        match s.threads[i]
        case Execution(_, phase) =>
          if phase.Spawned? || phase.Starting? then SetPhase(s, i, Ended(NeverStarted))
          else if phase.Working? || phase.Writing? then SetPhase(s, i, Ended(Dropped))
          else s
        case _ => s.(threads := s.threads[i := Gone])
      else s
  }

  /** The state a schedule leads to. */
  function Run(s: State, actions: seq<Action>): State
  {
    if actions == [] then s
    else Step(Run(s, actions[..|actions| - 1]), actions[|actions| - 1])
  }

  lemma {:induction false} RunAppend(s: State, first: seq<Action>, second: seq<Action>)
    ensures Run(s, first + second) == Run(Run(s, first), second)
  {
    if second == [] {
      assert first + second == first;
    } else {
      var n := |second| - 1;
      assert (first + second)[..|first| + n] == first + second[..n];
      RunAppend(s, first, second[..n]);
    }
  }

  /** What every write has in common, whatever snapshot it was computed from. */
  lemma WriteShape(t: Thread)
    requires WriteOf(t).Some?
    ensures var w := WriteOf(t).value;
      && w.row.taskID == w.id
      && w.row.from == Some(w.expected)
      && w.row.to == w.record.state
      && w.expected != CancelledState
      && (w.expected == FinalState ==> t.Execution? && t.phase.Writing?)
      && w.id == (if t.Handler? then t.id else t.task.id)
      && (w.delivery.Some? && w.delivery.value.FinalDelivery? <==> w.row.action == Finished)
      && (w.row.action == Finished <==> t.Execution? && t.phase.Writing? && t.phase.work.Finish?)
      && (w.delivery.Some? ==> t.Execution? && w.delivery.value.task == t.task)
      && (w.row.action == Started ==> t.Execution? && t.phase.Starting? && w.record.state == RunningState)
      && (w.record.state == WaitingApproval ==> w.expected == WaitingApproval)
  {
  }
}
