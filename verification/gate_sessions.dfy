/**
 One execution's session with the projector: the events of its stream up to the first one that Gate rejects,
 and the failure that the execution stores when there is such an event; and what starts a task again.
 */
module GateSessions {
  import opened Sequences
  import opened TaskEvents
  import opened GateModel
  import opened P = GateProjection

  // ---- Where the projector stops ----

  /** The projector ends its session at an event that Gate refuses and does not call a duplicate. */
  predicate Rejects(record: TaskRecord, e: TaskEvent)
  {
    !IsDuplicate(record, ProjectionOf(e)) && (IsTerminal(record.state) || Projected(record, ProjectionOf(e)).None?)
  }

  /** How many events pass before the first rejected one. */
  function Passed(id: TaskID, record: TaskRecord, events: seq<TaskEvent>): (n: nat)
    ensures n <= |events|
    decreases |events|
  {
    if events == [] || Rejects(record, events[0]) then 0
    else Passed(id, P.Project(id, record, events[0]), events[1..]) + 1
  }

  predicate IsSupported(e: TaskEvent)
  {
    !e.state.Other?
  }

  lemma {:induction false} ProjectFirst(id: TaskID, record: TaskRecord, events: seq<TaskEvent>)
    requires events != []
    ensures ProjectAll(id, record, events) == ProjectAll(id, P.Project(id, record, events[0]), events[1..])
  {
    assert events == [events[0]] + events[1..];
    ProjectAllAppend(id, record, [events[0]], events[1..]);
    assert ProjectAll(id, record, [events[0]]) == P.Project(id, record, events[0]) by {
      assert [events[0]][..0] == [];
    }
  }

  /** Events of the log beyond the cursor, in order. */
  predicate Ahead(id: TaskID, last: int, events: seq<TaskEvent>)
  {
    && (forall e <- events :: e.sequence >= 1 && e.sequence > last && e.eventID == EventID(id, e.sequence))
    && (forall i, j :: 0 <= i < j < |events| ==> events[i].sequence < events[j].sequence)
  }

  lemma AheadIsNew(id: TaskID, record: TaskRecord, e: TaskEvent)
    requires CursorNamed(id, record) && e.sequence > record.lastSequence && e.sequence >= 1
    requires e.eventID == EventID(id, e.sequence)
    ensures !IsDuplicate(record, ProjectionOf(e))
  {
    if record.lastSequence > 0 && e.eventID == record.lastEventID {
      EventIDInjective(id, e.sequence, record.lastSequence);
    }
    assert EventID(id, e.sequence)[|id|] == '-';
  }

  /** An event beyond the cursor of a task that has not ended is applied exactly when its state is supported. */
  lemma AheadIsApplied(id: TaskID, record: TaskRecord, e: TaskEvent)
    requires CursorNamed(id, record) && e.sequence > record.lastSequence && e.sequence >= 1
    requires e.eventID == EventID(id, e.sequence)
    ensures var next := P.Project(id, record, e);
      && (Rejects(record, e) <==> IsTerminal(record.state) || !IsSupported(e))
      && (Rejects(record, e) ==> next == record)
      && (!Rejects(record, e) ==> next.lastSequence == e.sequence)
      && CursorNamed(id, next)
  {
    AheadIsNew(id, record, e);
    ProjectKeepsCursorNamed(id, record, e);
    hide EventID;
  }

  lemma AheadRest(id: TaskID, last: int, events: seq<TaskEvent>)
    requires Ahead(id, last, events) && events != []
    ensures Ahead(id, last, events[1..]) && Ahead(id, events[0].sequence, events[1..])
  {
  }

  lemma {:induction false} CursorGrows(id: TaskID, record: TaskRecord, events: seq<TaskEvent>)
    ensures ProjectAll(id, record, events).lastSequence >= record.lastSequence
  {
    if events != [] {
      var n := |events| - 1;
      CursorGrows(id, record, events[..n]);
      ProjectMoves(id, ProjectAll(id, record, events[..n]), events[n]);
    }
  }

  lemma NoneSupported(events: seq<TaskEvent>)
    requires events != []
    ensures (forall e <- events :: !IsSupported(e))
            <==> !IsSupported(events[0]) && forall e <- events[1..] :: !IsSupported(e)
  {
    assert events == [events[0]] + events[1..];
  }

  /** Unsupported events leave a record alone, and one supported event moves its cursor. */
  lemma {:induction false} SupportedMoves(id: TaskID, record: TaskRecord, events: seq<TaskEvent>)
    requires CursorNamed(id, record) && Ahead(id, record.lastSequence, events) && !IsTerminal(record.state)
    ensures ProjectAll(id, record, events) == record <==> forall e <- events :: !IsSupported(e)
    decreases |events|
  {
    if events != [] {
      var e, rest := events[0], events[1..];
      assert e in events;
      ProjectFirst(id, record, events);
      AheadIsApplied(id, record, e);
      AheadRest(id, record.lastSequence, events);
      NoneSupported(events);
      hide CursorNamed;
      hide Ahead;
      hide ProjectAll;
      hide IsSupported;
      hide P.Project;
      hide IsTerminal;
      if Rejects(record, e) {
        SupportedMoves(id, record, rest);
      } else {
        CursorGrows(id, P.Project(id, record, e), rest);
      }
    }
  }

  /** Nothing is left to do after the first rejected event: the task has ended, or only unsupported events follow. */
  predicate NothingFollows(id: TaskID, record: TaskRecord, events: seq<TaskEvent>)
  {
    var n := Passed(id, record, events);
    || n == |events|
    || IsTerminal(ProjectAll(id, record, events[..n]).state)
    || forall e <- events[n + 1..] :: !IsSupported(e)
  }

  /** The projected record alone is that of all the events exactly when nothing follows the first rejected one. */
  lemma {:induction false} ProjectedStopIsWholeIff(id: TaskID, record: TaskRecord, events: seq<TaskEvent>)
    requires CursorNamed(id, record) && Ahead(id, record.lastSequence, events)
    ensures ProjectAll(id, record, events[..Passed(id, record, events)]) == ProjectAll(id, record, events)
            <==> NothingFollows(id, record, events)
    decreases |events|
  {
    if events != [] {
      var e, rest := events[0], events[1..];
      assert e in events;
      AheadIsApplied(id, record, e);
      AheadRest(id, record.lastSequence, events);
      if Rejects(record, e) {
        StopAtFirst(id, record, events);
      } else {
        ProjectedStopIsWholeIff(id, P.Project(id, record, e), rest);
        PassingIsFirst(id, record, events);
        StopLater(id, record, events);
      }
    } else {
      assert events[..0] == events;
    }
  }

  /** An event that passes leaves the records at the stop and at the end to the events after it. */
  lemma PassingIsFirst(id: TaskID, record: TaskRecord, events: seq<TaskEvent>)
    requires events != [] && !Rejects(record, events[0])
    ensures var next, rest := P.Project(id, record, events[0]), events[1..];
            && ProjectAll(id, record, events) == ProjectAll(id, next, rest)
            && ProjectAll(id, record, events[..Passed(id, record, events)])
               == ProjectAll(id, next, rest[..Passed(id, next, rest)])
  {
    var n := Passed(id, record, events);
    ProjectFirst(id, record, events);
    ProjectFirst(id, record, events[..n]);
    assert events[..n][1..] == events[1..][..n - 1];
    hide ProjectAll;
    hide Rejects;
    hide P.Project;
  }

  /** An event that passes leaves the question to the events after it. */
  lemma StopLater(id: TaskID, record: TaskRecord, events: seq<TaskEvent>)
    requires events != [] && !Rejects(record, events[0])
    ensures NothingFollows(id, record, events) <==> NothingFollows(id, P.Project(id, record, events[0]), events[1..])
  {
    var next, rest := P.Project(id, record, events[0]), events[1..];
    PassingIsFirst(id, record, events);
    var n := Passed(id, next, rest);
    assert Passed(id, record, events) == n + 1;
    if n < |rest| {
      assert rest[n + 1..] == events[n + 2..];
    }
    hide ProjectAll;
    hide IsSupported;
    hide Rejects;
    hide Passed;
    hide P.Project;
    hide IsTerminal;
  }

  lemma StopAtFirst(id: TaskID, record: TaskRecord, events: seq<TaskEvent>)
    requires CursorNamed(id, record) && Ahead(id, record.lastSequence, events)
    requires events != [] && Rejects(record, events[0])
    ensures ProjectAll(id, record, events[..Passed(id, record, events)]) == ProjectAll(id, record, events)
            <==> NothingFollows(id, record, events)
  {
    var rest := events[1..];
    assert events[0] in events && events[..0] == [];
    assert Passed(id, record, events) == 0;
    if IsTerminal(record.state) {
      TerminalIgnores(id, record, events);
      hide Rejects;
      hide Passed;
      assert ProjectAll(id, record, []) == record;
    } else {
      AheadIsApplied(id, record, events[0]);
      AheadRest(id, record.lastSequence, events);
      ProjectFirst(id, record, events);
      SupportedMoves(id, record, rest);
      assert ProjectAll(id, record, []) == record;
      hide ProjectAll;
      hide Rejects;
      hide Passed;
      hide CursorNamed;
      hide Ahead;
      hide P.Project;
    }
  }

  // ---- What the execution stores of a stop ----

  /** The error that the client returns of a rejected event. */
  function RejectionText(record: TaskRecord): string
  {
    "agentclient: project task event: task event projection rejected: "
    + if IsTerminal(record.state) then "terminal task cannot be reopened" else "unsupported task event state"
  }

  /** The record after an execution's failure; a cancelled task is left alone. */
  function Failing(record: TaskRecord, error: string): TaskRecord
  {
    if record.state == CancelledState then record else record.(state := FailedState, error := error)
  }

  /** The record up to the first rejected event. */
  function AtStop(id: TaskID, record: TaskRecord, events: seq<TaskEvent>): TaskRecord
  {
    ProjectAll(id, record, events[..Passed(id, record, events)])
  }

  /** The record a session leaves: the projected one, or the failed one when an event was rejected. */
  function AfterSession(id: TaskID, record: TaskRecord, events: seq<TaskEvent>): TaskRecord
  {
    var mid := AtStop(id, record, events);
    if Passed(id, record, events) == |events| then mid else Failing(mid, RejectionText(mid))
  }

  /** From record, the first n events were applied one by one and led to mid, which rejects the next one, if any. */
  ghost predicate LeadsTo(id: TaskID, record: TaskRecord, events: seq<TaskEvent>, n: nat, mid: TaskRecord)
  {
    && n <= |events| && CursorNamed(id, mid)
    && (if n == 0 then mid == record else mid.lastSequence > record.lastSequence)
    && (n < |events| ==> Rejects(mid, events[n]) && (IsTerminal(mid.state) || !IsSupported(events[n])))
    && (forall e <- events[..n] :: IsSupported(e))
  }

  lemma LeadsToLater(id: TaskID, record: TaskRecord, next: TaskRecord, events: seq<TaskEvent>, n: nat, mid: TaskRecord)
    requires events != [] && IsSupported(events[0]) && next.lastSequence > record.lastSequence
    requires LeadsTo(id, next, events[1..], n, mid)
    ensures LeadsTo(id, record, events, n + 1, mid)
  {
    assert events[..n + 1] == [events[0]] + events[1..][..n];
    hide CursorNamed;
    hide Rejects;
    hide IsSupported;
  }

  lemma {:induction false} StopShape(id: TaskID, record: TaskRecord, events: seq<TaskEvent>)
    requires CursorNamed(id, record) && Ahead(id, record.lastSequence, events)
    ensures LeadsTo(id, record, events, Passed(id, record, events), AtStop(id, record, events))
    decreases |events|
  {
    assert events[..0] == [] && ProjectAll(id, record, []) == record;
    if events != [] {
      var e, next := events[0], P.Project(id, record, events[0]);
      assert e in events;
      AheadIsApplied(id, record, e);
      AheadRest(id, record.lastSequence, events);
      if !Rejects(record, e) {
        StopShape(id, next, events[1..]);
        PassingIsFirst(id, record, events);
        LeadsToLater(id, record, next, events, Passed(id, next, events[1..]), AtStop(id, next, events[1..]));
        hide LeadsTo;
      }
    }
    hide ProjectAll;
    hide P.Project;
    hide CursorNamed;
    hide Ahead;
  }

  /** Events change nothing or move the cursor. */
  lemma {:induction false} StaysOrMoves(id: TaskID, record: TaskRecord, events: seq<TaskEvent>)
    ensures var after := ProjectAll(id, record, events);
      after == record || after.lastSequence > record.lastSequence
  {
    if events != [] {
      var n := |events| - 1;
      StaysOrMoves(id, record, events[..n]);
      ProjectMoves(id, ProjectAll(id, record, events[..n]), events[n]);
    }
  }

  /** One pass over all the events goes on where the projector stopped. */
  lemma PassGoesOn(id: TaskID, record: TaskRecord, events: seq<TaskEvent>)
    ensures var n, mid := Passed(id, record, events), AtStop(id, record, events);
      ProjectAll(id, record, events) == ProjectAll(id, mid, events[n..])
  {
    var n := Passed(id, record, events);
    assert events == events[..n] + events[n..];
    ProjectAllAppend(id, record, events[..n], events[n..]);
  }

  /** Where a record that rejects the next event fails, one pass goes on. */
  lemma FailingIsWholeIff(id: TaskID, mid: TaskRecord, rest: seq<TaskEvent>)
    ensures Failing(mid, RejectionText(mid)) == ProjectAll(id, mid, rest) <==>
      mid.state == CancelledState || (mid.state == FailedState && mid.error == RejectionText(mid))
  {
    if IsTerminal(mid.state) {
      TerminalIgnores(id, mid, rest);
    } else {
      StaysOrMoves(id, mid, rest);
    }
    hide ProjectAll;
    hide RejectionText;
  }

  /**
   A session leaves the record of all its events if and only if none was rejected, the task had been cancelled,
   or the task had failed before with the very text of the rejection.
   */
  lemma StopIsHarmlessIff(id: TaskID, record: TaskRecord, events: seq<TaskEvent>)
    ensures var mid := AtStop(id, record, events);
      AfterSession(id, record, events) == ProjectAll(id, record, events) <==>
      || Passed(id, record, events) == |events|
      || mid.state == CancelledState
      || (mid.state == FailedState && mid.error == RejectionText(mid))
  {
    var n, mid := Passed(id, record, events), AtStop(id, record, events);
    PassGoesOn(id, record, events);
    FailingIsWholeIff(id, mid, events[n..]);
    assert events[..|events|] == events;
    hide ProjectAll;
    hide Passed;
    hide RejectionText;
    hide Failing;
  }

  /** Of a task that has not ended, no event but the last one ends the stream. */
  predicate OneStream(events: seq<TaskEvent>)
  {
    forall i :: 0 <= i < |events| - 1 ==> !IsTerminalEvent(events[i].state)
  }

  /** Events that are not terminal leave a task that has not ended as such. */
  lemma {:induction false} QuietStaysLive(id: TaskID, record: TaskRecord, events: seq<TaskEvent>)
    requires !IsTerminal(record.state) && forall e <- events :: !IsTerminalEvent(e.state)
    ensures !IsTerminal(ProjectAll(id, record, events).state)
  {
    if events != [] {
      var n := |events| - 1;
      assert forall e <- events[..n] :: e in events;
      QuietStaysLive(id, record, events[..n]);
      assert events[n] in events;
    }
  }

  /** A stream of a task that has not ended is stopped while the task has not ended, by an unsupported event. */
  lemma StoppedLive(id: TaskID, record: TaskRecord, events: seq<TaskEvent>)
    requires CursorNamed(id, record) && Ahead(id, record.lastSequence, events)
    requires !IsTerminal(record.state) && OneStream(events)
    ensures var n := Passed(id, record, events);
      && (n < |events| ==> !IsTerminal(AtStop(id, record, events).state) && !IsSupported(events[n]))
      && (n == |events| <==> forall e <- events :: IsSupported(e))
  {
    var n := Passed(id, record, events);
    StopShape(id, record, events);
    if n < |events| {
      QuietStaysLive(id, record, events[..n]);
      assert events[n] in events;
    } else {
      assert events[..n] == events;
    }
  }

  /** A running task is failed by its stream exactly when the stream holds an unsupported event. */
  lemma RunningSessionIsWholeIff(id: TaskID, record: TaskRecord, events: seq<TaskEvent>)
    requires CursorNamed(id, record) && Ahead(id, record.lastSequence, events)
    requires !IsTerminal(record.state) && OneStream(events)
    ensures AfterSession(id, record, events) == ProjectAll(id, record, events) <==> forall e <- events :: IsSupported(e)
    ensures (exists e <- events :: !IsSupported(e)) ==>
      AfterSession(id, record, events)
      == AtStop(id, record, events).(state := FailedState, error := RejectionText(AtStop(id, record, events)))
  {
    StopIsHarmlessIff(id, record, events);
    StoppedLive(id, record, events);
  }

  /** A task that was started again: at work, with the cursor and the projected fields it had. */
  function Restarted(record: TaskRecord, attempt: int, error: string): TaskRecord
  {
    record.(state := RunningState, attempt := attempt, error := error)
  }

  // ---- Event after event ----

  /** Gate applies each of the events in turn. */
  ghost predicate Applied(id: TaskID, record: TaskRecord, events: seq<TaskEvent>)
  {
    forall i :: 0 <= i < |events| ==> Takes(id, record, events, i)
  }

  /** Gate applies event i to what the events before it leave. */
  predicate Takes(id: TaskID, record: TaskRecord, events: seq<TaskEvent>, i: nat)
    requires i < |events|
  {
    var mid := ProjectAll(id, record, events[..i]);
    !Rejects(mid, events[i]) && !IsDuplicate(mid, ProjectionOf(events[i]))
  }

  /** An event beyond the cursor that passes is applied; so are then the events after it. */
  lemma TakesLater(id: TaskID, record: TaskRecord, events: seq<TaskEvent>, i: nat)
    requires i + 1 < |events| && Takes(id, P.Project(id, record, events[0]), events[1..], i)
    ensures Takes(id, record, events, i + 1)
  {
    ProjectFirst(id, record, events[..i + 1]);
    assert events[..i + 1][1..] == events[1..][..i];
    hide ProjectAll;
    hide P.Project;
  }

  /** An event that passes, and the ones applied after it. */
  lemma AppliedFirst(id: TaskID, record: TaskRecord, events: seq<TaskEvent>)
    requires events != [] && !Rejects(record, events[0]) && !IsDuplicate(record, ProjectionOf(events[0]))
    requires Applied(id, P.Project(id, record, events[0]), events[1..])
    ensures Applied(id, record, events)
  {
    hide Rejects;
    hide IsDuplicate;
    hide P.Project;
    forall i | 0 <= i < |events| ensures Takes(id, record, events, i) {
      if i == 0 {
        assert events[..0] == [];
      } else {
        assert Takes(id, P.Project(id, record, events[0]), events[1..], i - 1);
        TakesLater(id, record, events, i - 1);
      }
    }
  }

  /** What passes before the first rejected event is applied, one event after the other. */
  lemma {:induction false} PassedIsApplied(id: TaskID, record: TaskRecord, events: seq<TaskEvent>)
    requires CursorNamed(id, record) && Ahead(id, record.lastSequence, events)
    ensures Applied(id, record, events[..Passed(id, record, events)])
    decreases |events|
  {
    var n := Passed(id, record, events);
    if n > 0 {
      var e, next, rest := events[0], P.Project(id, record, events[0]), events[1..];
      assert e in events && !Rejects(record, e);
      AheadIsNew(id, record, e);
      AheadIsApplied(id, record, e);
      AheadRest(id, record.lastSequence, events);
      hide CursorNamed;
      hide Ahead;
      hide Applied;
      PassedIsApplied(id, next, rest);
      assert events[..n][1..] == rest[..n - 1];
      hide Rejects;
      hide IsDuplicate;
      hide ProjectionOf;
      AppliedFirst(id, record, events[..n]);
    }
  }

  lemma AppliedPrefix(id: TaskID, record: TaskRecord, events: seq<TaskEvent>)
    requires events != [] && Applied(id, record, events)
    ensures var n := |events| - 1; Applied(id, record, events[..n]) && Takes(id, record, events, n)
  {
    var n := |events| - 1;
    forall i | 0 <= i < n ensures Takes(id, record, events[..n], i) {
      assert Takes(id, record, events, i);
      assert events[..n][..i] == events[..i];
    }
  }
}
