/** The projection cursor over every interleaving: what stale stores rewind, and when an event is applied again. */
module GateCursor {
  import opened Sequences
  import opened TaskEvents
  import opened GateModel
  import opened GateMachine
  import opened GateIdentity
  import opened GateAttempts
  import opened GateBudget

  function CursorOf(s: State, id: TaskID): int
  {
    if id in s.db.tasks then s.db.tasks[id].lastSequence else 0
  }

  /** The cursor that the step's store was computed from. */
  function ReadCursor(s: State, a: Action, id: TaskID): int
  {
    var t := StoredBy(s, a, id);
    if t.Some? && SnapshotOf(t.value).Some? then SnapshotOf(t.value).value.lastSequence else CursorOf(s, id)
  }

  /** How far the step's store takes the cursor back by storing an old one. */
  function RewoundBy(s: State, a: Action, id: TaskID): int
  {
    CursorOf(s, id) - ReadCursor(s, a, id)
  }

  /** The event that the step's store applies. */
  function AppliedBy(s: State, a: Action, id: TaskID): Option<int>
  {
    var t := StoredBy(s, a, id);
    if t.Some? && EventOf(t.value).Some? then Some(EventOf(t.value).value.sequence) else None
  }

  /** The event whose projection a thread is about to store. */
  function EventOf(t: Thread): Option<Projection>
  {
    match t
    case Handler(_, Project(e), _) => Some(e)
    case Execution(_, Writing(ApplyEvent(e), _)) => Some(e)
    case _ => None
  }

  /** Only a projection moves the cursor of what it read, forward and onto its event. */
  lemma WriteMovesCursor(t: Thread)
    requires WriteOf(t).Some?
    ensures SnapshotOf(t).Some?
    ensures var next, snapshot := WriteOf(t).value.record, SnapshotOf(t).value;
      if EventOf(t).Some? then next.lastSequence == EventOf(t).value.sequence > snapshot.lastSequence
      else next.lastSequence == snapshot.lastSequence
  {
  }

  // ---- The account of the cursor ----

  /** How far the step's store takes the cursor beyond the one it read. */
  function AdvancedBy(s: State, a: Action, id: TaskID): int
  {
    if AppliedBy(s, a, id).Some? then AppliedBy(s, a, id).value - ReadCursor(s, a, id) else 0
  }

  function Advanced(actions: seq<Action>, id: TaskID): int
  {
    if actions == [] then 0
    else
      var n := |actions| - 1;
      Advanced(actions[..n], id) + AdvancedBy(Run(INITIAL, actions[..n]), actions[n], id)
  }

  function Rewound(actions: seq<Action>, id: TaskID): int
  {
    if actions == [] then 0
    else
      var n := |actions| - 1;
      Rewound(actions[..n], id) + RewoundBy(Run(INITIAL, actions[..n]), actions[n], id)
  }

  /** One step leaves the cursor on the event it applies, or where its store found it, or where it was. */
  lemma StepMovesCursor(s: State, a: Action, id: TaskID)
    ensures CursorOf(Step(s, a), id)
            == if AppliedBy(s, a, id).Some? then AppliedBy(s, a, id).value else ReadCursor(s, a, id)
    ensures AppliedBy(s, a, id).Some? ==> AppliedBy(s, a, id).value > ReadCursor(s, a, id)
  {
    if StoredBy(s, a, id).Some? {
      var t := StoredBy(s, a, id).value;
      WriteMovesCursor(t);
      WriteShape(t);
      assert Step(s, a).db == Commit(s.db, WriteOf(t).value);
      hide Step;
      hide WriteOf;
      hide SnapshotOf;
      hide EventOf;
    } else if a.Store? && a.thread < |s.threads| && WriteOf(s.threads[a.thread]).Some? {
      assert Step(s, a).db == Commit(s.db, WriteOf(s.threads[a.thread]).value);
      hide Step;
      hide WriteOf;
    } else if !a.Accept? {
      assert Step(s, a).db == s.db;
      hide Step;
    }
  }

  /** In every interleaving: the cursor and what stale stores have taken back are what applied events have moved it. */
  lemma {:induction false} CursorIsConserved(actions: seq<Action>, id: TaskID)
    ensures CursorOf(Run(INITIAL, actions), id) + Rewound(actions, id) == Advanced(actions, id)
  {
    if actions != [] {
      var n := |actions| - 1;
      CursorIsConserved(actions[..n], id);
      hide Step;
      hide CursorOf;
      hide AppliedBy;
      hide ReadCursor;
      StepMovesCursor(Run(INITIAL, actions[..n]), actions[n], id);
    }
  }

  // ---- When events are applied once and in order ----

  /** The sequences of the events applied to the task, as their stores committed. */
  function AppliedTo(actions: seq<Action>, id: TaskID): seq<int>
  {
    if actions == [] then []
    else
      var n := |actions| - 1;
      var q := AppliedBy(Run(INITIAL, actions[..n]), actions[n], id);
      AppliedTo(actions[..n], id) + if q.Some? then [q.value] else []
  }

  /** The furthest the cursor has ever been. */
  function Peak(actions: seq<Action>, id: TaskID): int
  {
    if actions == [] then 0
    else
      var before, now := Peak(actions[..|actions| - 1], id), CursorOf(Run(INITIAL, actions), id);
      if before < now then now else before
  }

  predicate Rising(sequences: seq<int>)
  {
    forall i, j :: 0 <= i < j < |sequences| ==> sequences[i] < sequences[j]
  }

  /** Each event that was applied lay beyond the furthest the cursor had been. */
  predicate AlwaysAhead(actions: seq<Action>, id: TaskID)
  {
    actions != [] ==>
      var n := |actions| - 1;
      var q := AppliedBy(Run(INITIAL, actions[..n]), actions[n], id);
      AlwaysAhead(actions[..n], id) && (q.Some? ==> q.value > Peak(actions[..n], id))
  }

  function TaskOf(t: Thread): TaskID
    requires !t.Gone?
  {
    if t.Handler? then t.id else t.task.id
  }

  predicate HeldBelow(t: Thread, id: TaskID, peak: int)
  {
    SnapshotOf(t).Some? && TaskOf(t) == id ==> 0 <= SnapshotOf(t).value.lastSequence <= peak
  }

  /** No cursor, stored or held, is beyond the peak. */
  ghost predicate Bounded(s: State, id: TaskID, peak: int)
  {
    0 <= CursorOf(s, id) <= peak && forall t <- s.threads :: HeldBelow(t, id, peak)
  }

  /** A snapshot that a step adds is of the stored record. */
  lemma SnapshotsAreRead(s: State, a: Action, t: Thread)
    requires t in Step(s, a).threads && SnapshotOf(t).Some?
    ensures t in s.threads || (TaskOf(t) in s.db.tasks && SnapshotOf(t).value == s.db.tasks[TaskOf(t)])
  {
  }

  lemma StepIsBounded(s: State, a: Action, id: TaskID, peak: int)
    requires Bounded(s, id, peak)
    ensures var now := CursorOf(Step(s, a), id); Bounded(Step(s, a), id, if peak < now then now else peak)
  {
    StepMovesCursor(s, a, id);
    StoredIsHeld(s, a, id);
    var now := CursorOf(Step(s, a), id);
    forall t <- Step(s, a).threads ensures HeldBelow(t, id, if peak < now then now else peak) {
      if SnapshotOf(t).Some? {
        SnapshotsAreRead(s, a, t);
      }
    }
    hide Step;
  }

  /** What a step's store was computed from was held by a thread of the task. */
  lemma StoredIsHeld(s: State, a: Action, id: TaskID)
    ensures var t := StoredBy(s, a, id);
      t.Some? ==> t.value in s.threads && SnapshotOf(t.value).Some? && TaskOf(t.value) == id
  {
    if StoredBy(s, a, id).Some? {
      WriteShape(StoredBy(s, a, id).value);
      WriteMovesCursor(StoredBy(s, a, id).value);
    }
  }

  /** The peak is the furthest event applied, or 0. */
  ghost predicate Tops(peak: int, applied: seq<int>)
  {
    && (forall q <- applied :: 0 < q <= peak)
    && (if applied == [] then peak == 0 else peak in applied)
  }

  lemma {:induction false} PeakIsApplied(actions: seq<Action>, id: TaskID)
    ensures Bounded(Run(INITIAL, actions), id, Peak(actions, id)) && Tops(Peak(actions, id), AppliedTo(actions, id))
  {
    if actions != [] {
      var n := |actions| - 1;
      PeakIsApplied(actions[..n], id);
      var s := Run(INITIAL, actions[..n]);
      StepMovesCursor(s, actions[n], id);
      StoredIsHeld(s, actions[n], id);
      StepIsBounded(s, actions[n], id, Peak(actions[..n], id));
      ReadIsBounded(s, actions[n], id, Peak(actions[..n], id));
      hide Step;
      hide Bounded;
      hide ReadCursor;
      hide AppliedBy;
    }
  }

  lemma ReadIsBounded(s: State, a: Action, id: TaskID, peak: int)
    requires Bounded(s, id, peak)
    ensures 0 <= ReadCursor(s, a, id) <= peak
  {
    StoredIsHeld(s, a, id);
  }

  lemma RisingNext(applied: seq<int>, peak: int, q: int)
    requires Tops(peak, applied) && q > 0
    ensures Rising(applied + [q]) <==> Rising(applied) && q > peak
  {
    var all := applied + [q];
    if Rising(all) {
      assert forall i :: 0 <= i < |applied| ==> all[i] == applied[i] && all[i] < all[|applied|];
    } else if Rising(applied) && q > peak {
      assert forall i :: 0 <= i < |applied| ==> all[i] == applied[i] && applied[i] in applied;
    }
  }

  /**
   Over a whole schedule, the events applied to a task rise, so that none is applied again or out of order, if and
   only if each one that is applied lies beyond the furthest the cursor has ever been.
   */
  lemma {:induction false} EventsAreAppliedOnceIff(actions: seq<Action>, id: TaskID)
    ensures Rising(AppliedTo(actions, id)) <==> AlwaysAhead(actions, id)
  {
    if actions != [] {
      var n := |actions| - 1;
      EventsAreAppliedOnceIff(actions[..n], id);
      PeakIsApplied(actions[..n], id);
      var s := Run(INITIAL, actions[..n]);
      StepMovesCursor(s, actions[n], id);
      ReadIsBounded(s, actions[n], id, Peak(actions[..n], id));
      var q := AppliedBy(s, actions[n], id);
      hide Step;
      hide Bounded;
      hide ReadCursor;
      hide AppliedBy;
      hide Rising;
      if q.Some? {
        RisingNext(AppliedTo(actions[..n], id), Peak(actions[..n], id), q.value);
      } else {
        assert AppliedTo(actions[..n], id) + [] == AppliedTo(actions[..n], id);
      }
    }
  }

  ghost predicate NeverRewound(actions: seq<Action>, id: TaskID)
  {
    actions != [] ==>
      var n := |actions| - 1;
      NeverRewound(actions[..n], id) && RewoundBy(Run(INITIAL, actions[..n]), actions[n], id) <= 0
  }

  /** While no store takes the cursor back, every event is applied once and in order. */
  lemma {:induction false} FreshCursorsAreAhead(actions: seq<Action>, id: TaskID)
    requires NeverRewound(actions, id)
    ensures AlwaysAhead(actions, id) && Peak(actions, id) == CursorOf(Run(INITIAL, actions), id)
  {
    if actions != [] {
      var n := |actions| - 1;
      FreshCursorsAreAhead(actions[..n], id);
      StepMovesCursor(Run(INITIAL, actions[..n]), actions[n], id);
      hide Step;
      hide ReadCursor;
      hide AppliedBy;
    }
  }

  // ---- An event applied twice ----

  /** Two deliveries of one event read the running task, and both store. */
  function Twice(id: TaskID): seq<Action>
  {
    Opening(id) + [Invoke(id, Project(REPORT))] + [Store(1)] + [Store(2)]
  }

  /** A report held over a running record is stored and applied. */
  lemma ReportIsApplied(s: State, i: nat, id: TaskID, r: TaskRecord)
    requires i < |s.threads| && s.threads[i] == Handler(id, Project(REPORT), r)
    requires r.state == RunningState && r.lastSequence < 1 && r.lastEventID != "e1"
    requires id in s.db.tasks && s.db.tasks[id].state == RunningState
    ensures AppliedBy(s, Store(i), id) == Some(1)
  {
    StaleProjectionRewinds(s, i, id, r);
  }

  lemma AppliedNext(actions: seq<Action>, a: Action, id: TaskID)
    ensures var q := AppliedBy(Run(INITIAL, actions), a, id);
      AppliedTo(actions + [a], id) == AppliedTo(actions, id) + if q.Some? then [q.value] else []
  {
    assert (actions + [a])[..|actions|] == actions;
  }

  /** Both compare-and-sets see the same state: the event is applied a second time, over its own result. */
  lemma EventIsAppliedTwice(id: TaskID)
    ensures var applied := AppliedTo(Twice(id), id);
      |applied| >= 2 && applied[|applied| - 2] == applied[|applied| - 1] == 1 && !AlwaysAhead(Twice(id), id)
  {
    var r := NewRecord(Sample(2)).(state := RunningState, attempt := 1);
    var invoke := Invoke(id, Project(REPORT));
    OpeningUnfolds(id);
    FirstStartState(id);
    var s0 := FirstStart(id);
    ProjectionIsRead(s0, id, r);
    var s1 := Step(s0, invoke);
    ReportIsApplied(s1, 1, id, r);
    StaleProjectionRewinds(s1, 1, id, r);
    var s2 := Step(s1, Store(1));
    ReportIsApplied(s2, 2, id, r);
    hide Step;
    hide Run;
    hide AppliedBy;
    hide FirstStart;
    hide Opening;
    RunNext(Opening(id), invoke);
    RunNext(Opening(id) + [invoke], Store(1));
    AppliedNext(Opening(id) + [invoke], Store(1), id);
    AppliedNext(Opening(id) + [invoke] + [Store(1)], Store(2), id);
    EventsAreAppliedOnceIff(Twice(id), id);
    hide AppliedTo;
    hide AlwaysAhead;
  }
}
