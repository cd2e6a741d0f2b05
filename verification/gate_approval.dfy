/** When GateCore's approval gate holds over every interleaving. */
module GateApproval {
  import opened Sequences
  import opened TaskEvents
  import opened GateModel
  import opened GateMachine
  import opened GateIdentity

  predicate Unapproved(record: TaskRecord)
  {
    record.requireApproval && !record.approvalGranted
  }

  /** An unapproved task only waits or is cancelled. */
  predicate Gated(record: TaskRecord)
  {
    Unapproved(record) ==> record.state == WaitingApproval || record.state == CancelledState
  }

  predicate SoundRecord(record: TaskRecord)
  {
    && Gated(record)
    && (record.state == WaitingApproval ==> Unapproved(record))
    && (record.approvalGranted ==> record.requireApproval)
  }

  /** Executions exist only for tasks that may run, and snapshots are sound. */
  predicate SoundThread(t: Thread, tasks: map<TaskID, TaskRecord>)
  {
    && ThreadAgrees(t, tasks)
    && (SnapshotOf(t).Some? ==> SoundRecord(SnapshotOf(t).value))
    && (t.Execution? ==> !Unapproved(tasks[t.task.id]) && (SnapshotOf(t).Some? ==> !Unapproved(SnapshotOf(t).value)))
  }

  ghost predicate Sound(s: State)
  {
    && (forall id <- s.db.tasks :: SoundRecord(s.db.tasks[id]))
    && (forall t <- s.threads :: SoundThread(t, s.db.tasks))
  }

  /** No grant is taken back. */
  ghost predicate KeepsGrants(before: State, after: State)
  {
    forall id <- before.db.tasks :: before.db.tasks[id].approvalGranted ==>
      id in after.db.tasks && after.db.tasks[id].approvalGranted
  }

  /** Every stored task is gated, and no execution exists for an unapproved one. */
  ghost predicate Safe(s: State)
  {
    && (forall id <- s.db.tasks :: Gated(s.db.tasks[id]))
    && (forall t <- s.threads :: t.Execution? && t.task.id in s.db.tasks ==> !Unapproved(s.db.tasks[t.task.id]))
  }

  /** An outside projection stores an event that moves a task which is waiting for approval. */
  predicate Bypasses(s: State, a: Action)
  {
    && a.Store? && a.thread < |s.threads|
    && var t := s.threads[a.thread];
       && t.Handler? && t.call.Project? && t.snapshot.state == WaitingApproval && t.call.event.state != Progress
       && WriteOf(t).Some? && Applies(s.db, WriteOf(t).value)
  }

  /** What a projection of a non-waiting or a progress event leaves is as approved as what it read. */
  lemma ProjectionIsSound(id: TaskID, e: Projection, entry: TaskRecord)
    requires SoundRecord(entry) && PlanProjection(id, e, entry).Some?
    requires entry.state == WaitingApproval ==> e.state == Progress
    ensures var w := PlanProjection(id, e, entry).value;
      SoundRecord(w.record) && w.expected == entry.state && w.record.approvalGranted == entry.approvalGranted
  {
    match e.state {
      case Running =>
      case Queued =>
      case Progress =>
      case Final =>
      case Failed =>
      case Other(_) =>
    }
  }

  predicate MayStore(t: Thread)
  {
    t.Handler? && t.call.Project? ==> t.snapshot.state == WaitingApproval ==> t.call.event.state == Progress
  }

  lemma WriteIsSound(t: Thread, tasks: map<TaskID, TaskRecord>)
    requires WriteOf(t).Some? && SoundThread(t, tasks) && MayStore(t)
    ensures var w := WriteOf(t).value; var snapshot := SnapshotOf(t).value;
      && SoundRecord(w.record) && w.expected == snapshot.state
      && (w.record.approvalGranted == snapshot.approvalGranted
          || (w.record.approvalGranted && snapshot.state == WaitingApproval))
      && (SpawnedBy(t, w) != [] ==> !Unapproved(w.record))
      && (t.Execution? ==> !Unapproved(w.record))
  {
    match t {
      case Handler(id, call, snapshot) =>
        if call.Project? { ProjectionIsSound(id, call.event, snapshot); }
        CallKeepsIdentity(id, call, snapshot);
      case Execution(task, Starting(snapshot)) => StartKeepsIdentity(task.id, snapshot);
      case Execution(task, Writing(work, snapshot)) =>
        if work.ApplyEvent? { ProjectionIsSound(task.id, work.event, snapshot); }
        WorkKeepsIdentity(task, work, snapshot);
    }
  }

  /** Replacing a record by one written over its own state never takes approval back. */
  lemma StoreIsSound(s: State, i: nat)
    requires Sound(s) && i < |s.threads| && WriteOf(s.threads[i]).Some? && MayStore(s.threads[i])
    requires Applies(s.db, WriteOf(s.threads[i]).value)
    ensures var w := WriteOf(s.threads[i]).value;
      && SoundRecord(w.record)
      && SameIdentity(w.record, s.db.tasks[w.id])
      && (s.db.tasks[w.id].approvalGranted ==> w.record.approvalGranted)
      && (SpawnedBy(s.threads[i], w) != [] ==> !Unapproved(w.record))
  {
    var t := s.threads[i];
    assert t in s.threads && SoundThread(t, s.db.tasks);
    WriteIsSound(t, s.db.tasks);
    WriteKeepsIdentity(t, s.db.tasks);
  }

  /** Tasks only gain approval: what was sound for the old table is sound for the new one. */
  lemma SoundnessIsKept(t: Thread, before: map<TaskID, TaskRecord>, after: map<TaskID, TaskRecord>)
    requires SoundThread(t, before) && KeepsIdentity(before, after)
    requires forall id <- before :: id in after && (before[id].approvalGranted ==> after[id].approvalGranted)
    ensures SoundThread(t, after)
  {
    AgreementIsKept(t, before, after);
  }

  lemma SettledIsSound(t: Thread, w: Write, applied: bool, tasks: map<TaskID, TaskRecord>)
    requires SoundThread(t, tasks) && WriteOf(t).Some?
    requires w.id in tasks
    requires applied ==> tasks[w.id] == w.record
    requires SpawnedBy(t, w) != [] ==> !Unapproved(w.record)
    ensures SoundThread(Settle(t, applied), tasks)
    ensures applied ==> forall u <- SpawnedBy(t, w) :: SoundThread(u, tasks)
  {
    SettledAgrees(t, w, applied, tasks);
  }

  lemma ThreadStepIsSound(s: State, i: nat, t: Thread)
    requires Sound(s) && i < |s.threads| && SoundThread(t, s.db.tasks)
    ensures Sound(s.(threads := s.threads[i := t]))
  {
    var after := s.(threads := s.threads[i := t]);
    forall u <- after.threads ensures SoundThread(u, after.db.tasks) {
      var j :| 0 <= j < |after.threads| && after.threads[j] == u;
      if j != i { assert s.threads[j] in s.threads; }
    }
  }

  lemma StoreStepIsSound(s: State, i: nat)
    requires Sound(s) && i < |s.threads| && WriteOf(s.threads[i]).Some?
    requires Applies(s.db, WriteOf(s.threads[i]).value) ==> MayStore(s.threads[i])
    ensures var after := StoreStep(s, i, WriteOf(s.threads[i]).value); Sound(after) && KeepsGrants(s, after)
  {
    var t := s.threads[i];
    var w := WriteOf(t).value;
    if Applies(s.db, w) {
      AppliedStoreIsSound(s, i);
    } else {
      assert t in s.threads && SoundThread(Settle(t, false), s.db.tasks);
      assert StoreStep(s, i, w) == s.(threads := s.threads[i := Settle(t, false)]);
      hide StoreStep;
      hide WriteOf;
      hide Settle;
      ThreadStepIsSound(s, i, Settle(t, false));
    }
  }

  lemma AppliedStoreIsSound(s: State, i: nat)
    requires Sound(s) && i < |s.threads| && WriteOf(s.threads[i]).Some?
    requires Applies(s.db, WriteOf(s.threads[i]).value) && MayStore(s.threads[i])
    ensures var after := StoreStep(s, i, WriteOf(s.threads[i]).value); Sound(after) && KeepsGrants(s, after)
  {
    var t := s.threads[i];
    var w := WriteOf(t).value;
    var after := StoreStep(s, i, w);
    assert t in s.threads && SoundThread(t, s.db.tasks);
    StoreIsSound(s, i);
    SoundnessIsKept(t, s.db.tasks, after.db.tasks);
    SettledIsSound(t, w, true, after.db.tasks);
    hide SoundThread;
    hide SoundRecord;
    hide SameIdentity;
    hide KeepsIdentity;
    hide Settle;
    hide SpawnedBy;
    hide WriteOf;
    hide MayStore;
    hide Unapproved;
    forall u <- after.threads ensures SoundThread(u, after.db.tasks) {
      var j :| 0 <= j < |after.threads| && after.threads[j] == u;
      if j < |s.threads| && j != i {
        assert s.threads[j] in s.threads;
        SoundnessIsKept(u, s.db.tasks, after.db.tasks);
      }
    }
  }

  lemma BirthIsSound(s: State, t: Thread)
    requires Sound(s) && SoundThread(t, s.db.tasks)
    ensures Sound(s.(threads := s.threads + [t]))
  {
  }

  /** The snapshot an execution takes is as sound as the stored record. */
  lemma SnapshotIsSound(s: State, i: nat, phase: Phase)
    requires Sound(s) && i < |s.threads| && s.threads[i].Execution? && s.threads[i].task.id in s.db.tasks
    requires phase.Ended? || ((phase.Starting? || phase.Writing?) && phase.snapshot == s.db.tasks[s.threads[i].task.id])
    ensures Sound(SetPhase(s, i, phase))
  {
    var t := s.threads[i];
    assert t in s.threads && SoundThread(t, s.db.tasks) && t.task.id in s.db.tasks;
    assert SoundThread(t.(phase := phase), s.db.tasks);
    ThreadStepIsSound(s, i, t.(phase := phase));
  }

  lemma AcceptIsSound(s: State, id: TaskID, d: Dispatch)
    requires Sound(s)
    ensures Sound(Step(s, Accept(id, d))) && KeepsGrants(s, Step(s, Accept(id, d)))
  {
    if id !in s.db.tasks {
      var record := NewRecord(d);
      var created := State(Create(s.db, id, record), s.threads);
      forall u <- created.threads ensures SoundThread(u, created.db.tasks) {
        SoundnessIsKept(u, s.db.tasks, created.db.tasks);
      }
      if record.state == QueuedState {
        BirthIsSound(created, Execution(TaskFor(id, record), Spawned));
      }
    }
  }

  /** Any other step reads, creates or ends; none of these weakens approval. */
  lemma QuietStepIsSound(s: State, a: Action)
    requires Sound(s) && !a.Store?
    ensures Sound(Step(s, a)) && KeepsGrants(s, Step(s, a))
  {
    match a {
      case Accept(id, d) => AcceptIsSound(s, id, d);
      case Invoke(id, call) =>
        if id in s.db.tasks {
          BirthIsSound(s, Handler(id, call, s.db.tasks[id]));
        }
      case Begin(i) =>
        if i < |s.threads| && s.threads[i].Execution? {
          assert SoundThread(s.threads[i], s.db.tasks);
          SnapshotIsSound(s, i, Starting(s.db.tasks[s.threads[i].task.id]));
          SnapshotIsSound(s, i, Ended(NeverStarted));
        }
      case Do(i, work) =>
        if i < |s.threads| && s.threads[i].Execution? {
          assert SoundThread(s.threads[i], s.db.tasks);
          SnapshotIsSound(s, i, Writing(work, s.db.tasks[s.threads[i].task.id]));
          SnapshotIsSound(s, i, Ended(Dropped));
        }
      case Forgo(i) =>
        if i < |s.threads| && Step(s, a) != s {
          assert s.threads[i] in s.threads;
          ThreadStepIsSound(s, i, s.threads[i].(phase := Working));
        }
      case Abort(i) =>
        if i < |s.threads| {
          ThreadStepIsSound(s, i, Gone);
          if s.threads[i].Execution? {
            assert SoundThread(s.threads[i], s.db.tasks);
            SnapshotIsSound(s, i, Ended(NeverStarted));
            SnapshotIsSound(s, i, Ended(Dropped));
          }
        }
    }
  }

  lemma StepIsSound(s: State, a: Action)
    requires Sound(s) && !Bypasses(s, a)
    ensures Sound(Step(s, a)) && KeepsGrants(s, Step(s, a))
  {
    if !a.Store? {
      QuietStepIsSound(s, a);
    } else if a.thread < |s.threads| && WriteOf(s.threads[a.thread]).Some? {
      StoreStepIsSound(s, a.thread);
    }
  }

  /** A bypass leaves an unapproved task outside waiting and cancelled. */
  lemma BypassIsUnsafe(s: State, a: Action)
    requires Sound(s) && Bypasses(s, a)
    ensures !Safe(Step(s, a))
  {
    var t := s.threads[a.thread];
    assert t in s.threads && SoundThread(t, s.db.tasks);
    var w := WriteOf(t).value;
    assert Unapproved(w.record) && w.record.state != WaitingApproval && w.record.state != CancelledState;
    assert w.id in Step(s, a).db.tasks && Step(s, a).db.tasks[w.id] == w.record;
  }

  lemma SoundIsSafe(s: State)
    requires Sound(s)
    ensures Safe(s)
  {
    forall t <- s.threads | t.Execution? && t.task.id in s.db.tasks ensures !Unapproved(s.db.tasks[t.task.id]) {
      assert SoundThread(t, s.db.tasks);
    }
  }

  /** No store of the schedule lets an outside projection move a waiting task. */
  ghost predicate NoBypass(actions: seq<Action>)
  {
    actions != [] ==>
      var n := |actions| - 1;
      NoBypass(actions[..n]) && !Bypasses(Run(INITIAL, actions[..n]), actions[n])
  }

  /** Every state along the schedule is safe. */
  ghost predicate AlwaysSafe(actions: seq<Action>)
  {
    Safe(Run(INITIAL, actions)) && (actions != [] ==> AlwaysSafe(actions[..|actions| - 1]))
  }

  lemma {:induction false} NoBypassIsSound(actions: seq<Action>)
    requires NoBypass(actions)
    ensures Sound(Run(INITIAL, actions))
  {
    if actions != [] {
      hide Step;
      hide Sound;
      hide Bypasses;
      var n := |actions| - 1;
      NoBypassIsSound(actions[..n]);
      StepIsSound(Run(INITIAL, actions[..n]), actions[n]);
    }
  }

  /**
   The approval gate holds throughout a schedule exactly when no outside projection stores an event
   other than progress over a task that is waiting for approval.
   */
  lemma {:induction false} ApprovalGateHoldsIff(actions: seq<Action>)
    ensures AlwaysSafe(actions) <==> NoBypass(actions)
  {
    if actions != [] {
      hide Step;
      hide Sound;
      hide Safe;
      hide Bypasses;
      var n := |actions| - 1;
      ApprovalGateHoldsIff(actions[..n]);
      if NoBypass(actions[..n]) {
        var s := Run(INITIAL, actions[..n]);
        NoBypassIsSound(actions[..n]);
        if Bypasses(s, actions[n]) {
          BypassIsUnsafe(s, actions[n]);
        } else {
          StepIsSound(s, actions[n]);
          SoundIsSafe(Step(s, actions[n]));
        }
      }
    }
  }

  /** Events reach tasks only through executions. */
  predicate OnlyExecutionsProject(actions: seq<Action>)
  {
    forall a <- actions :: !(a.Invoke? && a.call.Project?)
  }

  ghost predicate NoHandlerProjects(s: State)
  {
    forall t <- s.threads :: !(t.Handler? && t.call.Project?)
  }

  lemma StepAddsNoProjection(s: State, a: Action)
    requires NoHandlerProjects(s) && !(a.Invoke? && a.call.Project?)
    ensures NoHandlerProjects(Step(s, a))
  {
    var after := Step(s, a);
    forall t <- after.threads ensures !(t.Handler? && t.call.Project?) {
      var j :| 0 <= j < |after.threads| && after.threads[j] == t;
      if j < |s.threads| {
        assert s.threads[j] in s.threads;
      }
    }
  }

  lemma {:induction false} NoProjectingHandler(actions: seq<Action>)
    requires OnlyExecutionsProject(actions)
    ensures NoHandlerProjects(Run(INITIAL, actions))
  {
    if actions != [] {
      hide Step;
      hide NoHandlerProjects;
      var n := |actions| - 1;
      assert forall a <- actions[..n] :: a in actions;
      NoProjectingHandler(actions[..n]);
      assert actions[n] in actions;
      StepAddsNoProjection(Run(INITIAL, actions[..n]), actions[n]);
    }
  }

  lemma {:induction false} NoProjectionNoBypass(actions: seq<Action>)
    requires OnlyExecutionsProject(actions)
    ensures NoBypass(actions)
  {
    if actions != [] {
      hide Step;
      var n := |actions| - 1;
      assert forall a <- actions[..n] :: a in actions;
      NoProjectionNoBypass(actions[..n]);
      NoProjectingHandler(actions[..n]);
    }
  }

  lemma GrantsCompose(s: State, mid: State, after: State)
    requires KeepsGrants(s, mid) && KeepsGrants(mid, after)
    ensures KeepsGrants(s, after)
  {
  }

  lemma {:induction false} GrantsAreKept(first: seq<Action>, later: seq<Action>)
    requires NoBypass(first + later)
    ensures KeepsGrants(Run(INITIAL, first), Run(INITIAL, first + later))
  {
    if later == [] {
      assert first + later == first;
    } else {
      hide Step;
      hide Sound;
      hide Bypasses;
      hide KeepsGrants;
      var n := |later| - 1;
      var all, shorter := first + later, first + later[..n];
      LastOfAppend(first, later);
      assert NoBypass(shorter) && !Bypasses(Run(INITIAL, shorter), later[n]);
      assert Run(INITIAL, all) == Step(Run(INITIAL, shorter), later[n]);
      hide Run;
      hide NoBypass;
      GrantsAreKept(first, later[..n]);
      NoBypassIsSound(shorter);
      StepIsSound(Run(INITIAL, shorter), later[n]);
      GrantsCompose(Run(INITIAL, first), Run(INITIAL, shorter), Run(INITIAL, all));
    }
  }

  /**
   While only executions project events, under every interleaving of stale handlers: an unapproved task
   is waiting or cancelled, nothing executes it, and a grant survives every later write.
   */
  lemma ApprovalIsSafe(first: seq<Action>, later: seq<Action>)
    requires OnlyExecutionsProject(first + later)
    ensures Safe(Run(INITIAL, first)) && Safe(Run(INITIAL, first + later))
    ensures KeepsGrants(Run(INITIAL, first), Run(INITIAL, first + later))
  {
    hide Run;
    hide Safe;
    hide NoBypass;
    assert forall a <- first :: a in first + later;
    NoProjectionNoBypass(first);
    NoBypassIsSound(first);
    SoundIsSafe(Run(INITIAL, first));
    NoProjectionNoBypass(first + later);
    NoBypassIsSound(first + later);
    SoundIsSafe(Run(INITIAL, first + later));
    GrantsAreKept(first, later);
  }

  // ---- The request that opens the gate ----

  /** A task that needs approval is accepted, and a final event for it arrives at the projection endpoint. */
  function Intrusion(id: TaskID, d: Dispatch, eventID: string): seq<Action>
  {
    [Accept(id, d), Invoke(id, Project(Projection(eventID, 1, Final, "", "", "", ""))), Store(0)]
  }

  lemma IntrusionUnfolds(id: TaskID, d: Dispatch, eventID: string)
    ensures var all := Intrusion(id, d, eventID);
      Run(INITIAL, all) == Step(Step(Step(INITIAL, all[0]), all[1]), all[2])
  {
    var all := Intrusion(id, d, eventID);
    assert all[..2][..1] == all[..1] && all[..1][..0] == [];
    assert Run(INITIAL, all[..1]) == Step(INITIAL, all[0]);
    assert Run(INITIAL, all[..2]) == Step(Run(INITIAL, all[..1]), all[1]);
  }

  /** The endpoint finishes an unapproved task on the first event it is sent. */
  lemma IntrusionIsUnsafe(id: TaskID, d: Dispatch, eventID: string)
    requires d.options.requireApproval && eventID != ""
    ensures var s := Run(INITIAL, Intrusion(id, d, eventID));
      !Safe(s) && id in s.db.tasks && s.db.tasks[id].state == FinalState
  {
    var all := Intrusion(id, d, eventID);
    IntrusionUnfolds(id, d, eventID);
    var accepted := Step(INITIAL, all[0]);
    assert accepted.db.tasks == map[id := NewRecord(d)] && accepted.threads == [];
    var read := Step(accepted, all[1]);
    assert read.threads == [Handler(id, all[1].call, NewRecord(d))];
    var stored := Step(read, all[2]);
    assert Unapproved(stored.db.tasks[id]) && stored.db.tasks[id].state == FinalState;
    hide Run;
  }
}
