/** What a pass over the agent's events leaves in the fields of a task, in terms of the events alone. */
module GateFields {
  import opened Sequences
  import opened TaskEvents
  import opened GateModel
  import opened GateMachine
  import opened AgentService
  import opened P = GateProjection
  import opened GateSessions
  import GateExecutions
  import GateEffects
  import GateCursor
  import GateIdentity

  /** The first final or failed event, or the number of events. */
  function FirstEnd(events: seq<TaskEvent>): (t: nat)
    ensures t <= |events|
  {
    if events == [] || events[0].state == Final || events[0].state == Failed then 0 else FirstEnd(events[1..]) + 1
  }

  lemma {:induction false} FirstEndIsFirst(events: seq<TaskEvent>)
    ensures var t := FirstEnd(events);
      && (forall i :: 0 <= i < t ==> events[i].state != Final && events[i].state != Failed)
      && (t < |events| ==> events[t].state == Final || events[t].state == Failed)
  {
    if events != [] {
      FirstEndIsFirst(events[1..]);
    }
  }

  /** Events that set a live state, that report progress, and that are in any state Gate knows. */
  datatype Kind = Moving | Reporting | Known

  predicate Is(state: EventState, kind: Kind)
  {
    match kind
    case Moving => state == Running || state == Queued
    case Reporting => state == Progress
    case Known => state == Running || state == Queued || state == Progress || state == Final || state == Failed
  }

  /** The last event of a kind. */
  function LastOf(events: seq<TaskEvent>, kind: Kind): Option<TaskEvent>
  {
    if events == [] then None
    else
      var n := |events| - 1;
      if Is(events[n].state, kind) then Some(events[n]) else LastOf(events[..n], kind)
  }

  /** It is the one event of the kind after which there is no other. */
  lemma {:induction false} LastOfIsLast(events: seq<TaskEvent>, kind: Kind, i: nat)
    requires i < |events| && Is(events[i].state, kind)
    requires forall j :: i < j < |events| ==> !Is(events[j].state, kind)
    ensures LastOf(events, kind) == Some(events[i])
  {
    if i < |events| - 1 {
      LastOfIsLast(events[..|events| - 1], kind, i);
    }
  }

  lemma {:induction false} LastOfIsNone(events: seq<TaskEvent>, kind: Kind)
    requires forall j :: 0 <= j < |events| ==> !Is(events[j].state, kind)
    ensures LastOf(events, kind) == None
  {
    if events != [] {
      LastOfIsNone(events[..|events| - 1], kind);
    }
  }

  /** The events up to the first final or failed one, and whether there is one. */
  function UpToEnd(events: seq<TaskEvent>): seq<TaskEvent>
  {
    if FirstEnd(events) < |events| then events[..FirstEnd(events) + 1] else events
  }

  /** The event that ends the task. */
  function EndOf(events: seq<TaskEvent>): Option<TaskEvent>
  {
    if FirstEnd(events) < |events| then Some(events[FirstEnd(events)]) else None
  }

  /** The state of the event that ended the task, or else of the last one that set a state. */
  predicate ShowsState(record: TaskRecord, events: seq<TaskEvent>, after: TaskRecord)
  {
    after.state ==
      match EndOf(events)
      case Some(e) => if e.state == Final then FinalState else FailedState
      case None =>
        match LastOf(events, Moving)
        case None => record.state
        case Some(e) => if e.state == Running then RunningState else QueuedState
  }

  /** The content of the event that finished the task, and the error of the one that failed it. */
  predicate ShowsOutcome(record: TaskRecord, events: seq<TaskEvent>, after: TaskRecord)
  {
    var end := EndOf(events);
    && after.result == (if end.Some? && end.value.state == Final then end.value.content else record.result)
    && after.error == (if end.Some? && end.value.state == Failed then end.value.error else record.error)
  }

  /** The status and the preview of the last progress event before the end. */
  predicate ShowsProgress(record: TaskRecord, events: seq<TaskEvent>, after: TaskRecord)
  {
    (after.progressState, after.progress) ==
      match LastOf(UpToEnd(events), Reporting)
      case None => (record.progressState, record.progress)
      case Some(e) => if e.progress.Some? then e.progress.value else ("", "")
  }

  /** The sequence and the id of the last event, up to the end, in a state that Gate knows. */
  predicate ShowsCursor(record: TaskRecord, events: seq<TaskEvent>, after: TaskRecord)
  {
    (after.lastSequence, after.lastEventID) ==
      match LastOf(UpToEnd(events), Known)
      case None => (record.lastSequence, record.lastEventID)
      case Some(e) => (e.sequence, e.eventID)
  }

  /** Nothing else changes. */
  predicate KeepsRest(record: TaskRecord, after: TaskRecord)
  {
    record == after.(state := record.state, result := record.result, error := record.error,
                     progressState := record.progressState, progress := record.progress,
                     lastSequence := record.lastSequence, lastEventID := record.lastEventID)
  }

  predicate Shows(record: TaskRecord, events: seq<TaskEvent>, after: TaskRecord)
  {
    && ShowsState(record, events, after) && ShowsOutcome(record, events, after)
    && ShowsProgress(record, events, after) && ShowsCursor(record, events, after) && KeepsRest(record, after)
  }

  // ---- One event more ----

  lemma {:induction false} FirstEndAppend(events: seq<TaskEvent>, e: TaskEvent)
    ensures FirstEnd(events + [e]) ==
      if FirstEnd(events) < |events| then FirstEnd(events)
      else if e.state == Final || e.state == Failed then |events| else |events| + 1
  {
    if events != [] {
      assert (events + [e])[1..] == events[1..] + [e];
      FirstEndAppend(events[1..], e);
    }
  }

  lemma EndAppend(events: seq<TaskEvent>, e: TaskEvent)
    ensures EndOf(events).Some? ==> EndOf(events + [e]) == EndOf(events) && UpToEnd(events + [e]) == UpToEnd(events)
    ensures EndOf(events).None? ==>
      && EndOf(events + [e]) == (if e.state == Final || e.state == Failed then Some(e) else None)
      && UpToEnd(events) == events && UpToEnd(events + [e]) == events + [e]
  {
    FirstEndAppend(events, e);
    var t := FirstEnd(events);
    if t < |events| {
      assert (events + [e])[..t + 1] == events[..t + 1];
    } else if e.state == Final || e.state == Failed {
      assert (events + [e])[..t + 1] == events + [e];
    }
  }

  lemma LastAppend(events: seq<TaskEvent>, e: TaskEvent, kind: Kind)
    ensures LastOf(events + [e], kind) == if Is(e.state, kind) then Some(e) else LastOf(events, kind)
  {
    assert (events + [e])[..|events|] == events;
  }

  /** Events after the end change nothing of what is shown. */
  lemma ShowsAfterEnd(record: TaskRecord, events: seq<TaskEvent>, e: TaskEvent, after: TaskRecord)
    requires Shows(record, events, after) && EndOf(events).Some?
    ensures Shows(record, events + [e], after)
  {
    EndAppend(events, e);
    hide EndOf;
    hide UpToEnd;
    hide LastOf;
    hide KeepsRest;
  }

  /** What one new event changes of a task that has not ended, field by field. */
  lemma ProjectReports(id: TaskID, mid: TaskRecord, e: TaskEvent)
    requires !IsTerminal(mid.state) && !IsDuplicate(mid, ProjectionOf(e))
    ensures var next := P.Project(id, mid, e);
      && KeepsRest(mid, next)
      && next.state == (match e.state
                        case Running => RunningState
                        case Queued => QueuedState
                        case Final => FinalState
                        case Failed => FailedState
                        case _ => mid.state)
      && next.result == (if e.state == Final then e.content else mid.result)
      && next.error == (if e.state == Failed then e.error else mid.error)
      && (next.progressState, next.progress)
         == (if e.state != Progress then (mid.progressState, mid.progress)
             else if e.progress.Some? then e.progress.value else ("", ""))
      && (next.lastSequence, next.lastEventID)
         == (if Is(e.state, Known) then (e.sequence, e.eventID) else (mid.lastSequence, mid.lastEventID))
  {
  }

  lemma RestIsKept(a: TaskRecord, b: TaskRecord, c: TaskRecord)
    requires KeepsRest(a, b) && KeepsRest(b, c)
    ensures KeepsRest(a, c)
  {
  }

  /** An event that Gate applies while the task has not ended shows in the record; an unknown one does not. */
  lemma ShowsNext(id: TaskID, record: TaskRecord, events: seq<TaskEvent>, e: TaskEvent, mid: TaskRecord)
    requires Shows(record, events, mid) && EndOf(events).None?
    requires !IsTerminal(mid.state) && !IsDuplicate(mid, ProjectionOf(e))
    ensures Shows(record, events + [e], P.Project(id, mid, e))
  {
    ProjectReports(id, mid, e);
    RestIsKept(record, mid, P.Project(id, mid, e));
    EndAppend(events, e);
    LastAppend(events, e, Moving);
    LastAppend(events, e, Reporting);
    LastAppend(events, e, Known);
    hide EndOf;
    hide UpToEnd;
    hide LastOf;
    hide P.Project;
    hide ProjectionOf;
    hide IsDuplicate;
    hide IsTerminal;
    hide KeepsRest;
  }

  /** One event more, beyond the cursor. */
  lemma PassShowsNext(id: TaskID, record: TaskRecord, events: seq<TaskEvent>, e: TaskEvent, mid: TaskRecord)
    requires Shows(record, events, mid) && CursorNamed(id, mid) && (IsTerminal(mid.state) <==> EndOf(events).Some?)
    requires e.sequence > mid.lastSequence && e.sequence >= 1 && e.eventID == EventID(id, e.sequence)
    ensures var next := P.Project(id, mid, e);
      && Shows(record, events + [e], next) && CursorNamed(id, next)
      && (IsTerminal(next.state) <==> EndOf(events + [e]).Some?)
  {
    ProjectKeepsCursorNamed(id, mid, e);
    EndAppend(events, e);
    if IsTerminal(mid.state) {
      hide CursorNamed;
      hide Shows;
      ShowsAfterEnd(record, events, e, mid);
      BehindIsIgnored(id, mid, e);
    } else {
      AheadIsNew(id, mid, e);
      ProjectReports(id, mid, e);
      hide CursorNamed;
      hide Shows;
      ShowsNext(id, record, events, e, mid);
      hide P.Project;
      hide ProjectionOf;
      hide EventID;
    }
  }

  lemma {:induction false} PassIsBehind(id: TaskID, record: TaskRecord, events: seq<TaskEvent>, bound: int)
    requires record.lastSequence < bound && forall e <- events :: e.sequence < bound
    ensures ProjectAll(id, record, events).lastSequence < bound
  {
    if events != [] {
      var n := |events| - 1;
      assert events[n] in events && forall e <- events[..n] :: e in events;
      PassIsBehind(id, record, events[..n], bound);
      ProjectMoves(id, ProjectAll(id, record, events[..n]), events[n]);
    }
  }

  lemma AheadPrefix(id: TaskID, last: int, events: seq<TaskEvent>)
    requires Ahead(id, last, events) && events != []
    ensures var n := |events| - 1; var e := events[n];
      && Ahead(id, last, events[..n]) && (forall x <- events[..n] :: x.sequence < e.sequence)
      && e.sequence >= 1 && e.sequence > last && e.eventID == EventID(id, e.sequence)
  {
    var n := |events| - 1;
    assert events[n] in events && forall x <- events[..n] :: x in events;
  }

  /** Events ahead of a live record, projected in order, leave exactly what they show. */
  lemma {:induction false} PassShowsEvents(id: TaskID, record: TaskRecord, events: seq<TaskEvent>)
    requires CursorNamed(id, record) && Ahead(id, record.lastSequence, events) && !IsTerminal(record.state)
    ensures Shows(record, events, ProjectAll(id, record, events))
    ensures CursorNamed(id, ProjectAll(id, record, events))
    ensures IsTerminal(ProjectAll(id, record, events).state) <==> EndOf(events).Some?
  {
    hide Shows;
    hide CursorNamed;
    hide Ahead;
    hide P.Project;
    hide EndOf;
    hide EventID;
    if events == [] {
      ShowsNothing(record);
    } else {
      var n := |events| - 1;
      var e := events[n];
      AheadPrefix(id, record.lastSequence, events);
      PassShowsEvents(id, record, events[..n]);
      PassIsBehind(id, record, events[..n], e.sequence);
      PassShowsNext(id, record, events[..n], e, ProjectAll(id, record, events[..n]));
      assert events == events[..n] + [e];
    }
  }

  lemma ShowsNothing(record: TaskRecord)
    ensures Shows(record, [], record) && EndOf([]).None?
  {
  }

  /** One pass over the agent's log leaves a task that has not ended with what the log shows beyond its cursor. */
  lemma PassShowsLog(id: TaskID, record: TaskRecord, log: seq<TaskEvent>)
    requires Dense(id, log) && CursorNamed(id, record) && record.lastSequence <= |log| && !IsTerminal(record.state)
    ensures record.lastSequence >= 0
    ensures Shows(record, log[record.lastSequence..], ProjectAll(id, record, log))
  {
    var c := record.lastSequence;
    assert c >= 0;
    RestIsAhead(id, log, c);
    PassStartsAtCursor(id, record, log);
    hide Dense;
    hide Shows;
    hide CursorNamed;
    hide ProjectAll;
    hide Ahead;
    PassShowsEvents(id, record, log[c..]);
  }

  lemma PassStartsAtCursor(id: TaskID, record: TaskRecord, log: seq<TaskEvent>)
    requires Numbered(log) && 0 <= record.lastSequence <= |log|
    ensures ProjectAll(id, record, log) == ProjectAll(id, record, log[record.lastSequence..])
  {
    var c := record.lastSequence;
    SeenIsIgnored(id, record, log, c);
    hide ProjectAll;
    ProjectAllAppend(id, record, log[..c], log[c..]);
    assert log == log[..c] + log[c..];
  }

  lemma RestIsAhead(id: TaskID, log: seq<TaskEvent>, c: nat)
    requires Dense(id, log) && c <= |log|
    ensures Ahead(id, c, log[c..])
  {
    hide EventID;
    assert forall i :: 0 <= i < |log| - c ==> log[c..][i] == log[c + i];
  }

  // ---- Over schedules ----

  /** The record of a session whose first n events Gate knows, and the next one not. */
  predicate ShowsSession(record: TaskRecord, events: seq<TaskEvent>, n: nat, mid: TaskRecord, after: TaskRecord)
  {
    && n <= |events| && (forall e <- events[..n] :: !e.state.Other?) && Shows(record, events[..n], mid)
    && if n == |events| then after == mid
       else
         && events[n].state.Other?
         && after == mid.(state := FailedState,
                          error := "agentclient: project task event: task event projection rejected: "
                                   + "unsupported task event state")
  }

  /** An execution's session, as a schedule of the machine, leaves what its events show up to the first unknown one. */
  lemma SessionShowsEvents(s: State, i: nat, id: TaskID, events: seq<TaskEvent>)
    requires GateExecutions.AtWork(s, i, id) && CursorNamed(id, s.db.tasks[id])
    requires Ahead(id, s.db.tasks[id].lastSequence, events) && OneStream(events) && !IsTerminal(s.db.tasks[id].state)
    requires forall e <- events :: GateExecutions.CarriesProgress(e)
    ensures var r := s.db.tasks[id]; var after := Run(s, GateExecutions.Session(id, r, i, events));
      id in after.db.tasks && exists n, mid :: ShowsSession(r, events, n, mid, after.db.tasks[id])
  {
    var r := s.db.tasks[id];
    var n, mid := Passed(id, r, events), AtStop(id, r, events);
    GateExecutions.SessionRunsSchedule(s, i, id, events);
    SessionShows(id, r, events);
    hide Run;
    hide GateExecutions.Session;
    hide AfterSession;
    hide ShowsSession;
    assert ShowsSession(r, events, n, mid, AfterSession(id, r, events));
  }

  lemma SessionShows(id: TaskID, r: TaskRecord, events: seq<TaskEvent>)
    requires CursorNamed(id, r) && Ahead(id, r.lastSequence, events) && OneStream(events) && !IsTerminal(r.state)
    ensures ShowsSession(r, events, Passed(id, r, events), AtStop(id, r, events), AfterSession(id, r, events))
  {
    var n := Passed(id, r, events);
    StopShape(id, r, events);
    StoppedLive(id, r, events);
    assert forall e <- events[..n] :: e in events;
    hide CursorNamed;
    hide Passed;
    hide Shows;
    hide Rejects;
    hide IsDuplicate;
    assert Ahead(id, r.lastSequence, events[..n]);
    hide Ahead;
    PassShowsEvents(id, r, events[..n]);
    hide ProjectAll;
  }

  /**
   In any state of any schedule, an event that a thread is about to store was new to what it read, and is stored
   exactly when the task is still in the state it read: the fields it reports over that snapshot.
   */
  lemma StoredEventShows(s: State, i: nat, e: Projection)
    requires i < |s.threads| && WriteOf(s.threads[i]).Some? && GateCursor.EventOf(s.threads[i]) == Some(e)
    ensures var t := s.threads[i];
      var id := GateCursor.TaskOf(t);
      && GateIdentity.SnapshotOf(t).Some?
      && var snapshot := GateIdentity.SnapshotOf(t).value;
         && !e.state.Other? && e.sequence > snapshot.lastSequence && e.eventID != snapshot.lastEventID
         && snapshot.state in {WaitingApproval, QueuedState, RunningState}
         && Step(s, Store(i)).db ==
            if id in s.db.tasks && s.db.tasks[id].state == snapshot.state
            then GateEffects.Stored(s.db, id, GateEffects.Reported(snapshot, e), AgentReported(e.state), e.error, [])
            else s.db
  {
    assert s.db.outbox + [] == s.db.outbox;
  }
}
