/**
 Sessions and restarts as schedules of the machine: what one execution stores of its stream, read and store after
 read and store, and what the calls that start a task again store of it.
 */
module GateExecutions {
  import opened Sequences
  import opened TaskEvents
  import opened GateModel
  import opened GateMachine
  import opened GateAttempts
  import opened S = GateSessions
  import P = GateProjection
  import GateBudget
  import GateService

  /** Execution i offers one event to the projector and reports the progress it carries. */
  function Offer(i: nat, e: TaskEvent): seq<Action>
  {
    [Do(i, ApplyEvent(ProjectionOf(e))), Store(i)]
    + if e.progress.None? then []
      else [Do(i, ReportProgress(e.progress.value.0, e.progress.value.1)), Store(i)]
  }

  function OfferAll(i: nat, events: seq<TaskEvent>): seq<Action>
  {
    if events == [] then [] else OfferAll(i, events[..|events| - 1]) + Offer(i, events[|events| - 1])
  }

  /** Execution i is at work on the stored task id. */
  predicate AtWork(s: State, i: nat, id: TaskID)
  {
    && i < |s.threads| && s.threads[i].Execution? && s.threads[i].task.id == id && s.threads[i].phase.Working?
    && id in s.db.tasks
  }

  /** Only progress events carry progress. */
  predicate CarriesProgress(e: TaskEvent)
  {
    e.progress.Some? ==> e.state == Progress
  }

  lemma RunPair(s: State, a: Action, b: Action)
    ensures Run(s, [a, b]) == Step(Step(s, a), b)
  {
    assert [a, b][..1] == [a] && [a][..0] == [];
    assert Run(s, [a]) == Step(s, a);
  }

  /** A working execution reads and at once stores one piece of work: the write, or nothing when there is none. */
  lemma WorkIsStored(s: State, i: nat, id: TaskID, work: Work)
    requires AtWork(s, i, id) && !EndsExecution(work)
    ensures var after := Run(s, [Do(i, work), Store(i)]);
      && after.threads == s.threads
      && after.db.tasks == match PlanWork(s.threads[i].task, work, s.db.tasks[id])
                           case None => s.db.tasks
                           case Some(w) => s.db.tasks[id := w.record]
  {
    RunPair(s, Do(i, work), Store(i));
    var t := s.threads[i];
    if PlanWork(t.task, work, s.db.tasks[id]).Some? {
      var mid := SetPhase(s, i, Writing(work, s.db.tasks[id]));
      WriteShape(mid.threads[i]);
      assert Applies(s.db, PlanWork(t.task, work, s.db.tasks[id]).value);
      assert mid.threads[i := t] + [] == s.threads;
    }
  }

  /** An event that Gate applies is offered, and its progress reported: the record is the projected one. */
  lemma OfferProjects(s: State, i: nat, id: TaskID, e: TaskEvent)
    requires AtWork(s, i, id) && !Rejects(s.db.tasks[id], e) && CarriesProgress(e)
    requires !IsDuplicate(s.db.tasks[id], ProjectionOf(e))
    ensures var after := Run(s, Offer(i, e));
      after.threads == s.threads && after.db.tasks == s.db.tasks[id := P.Project(id, s.db.tasks[id], e)]
  {
    var apply := ApplyEvent(ProjectionOf(e));
    WorkIsStored(s, i, id, apply);
    var mid := Run(s, [Do(i, apply), Store(i)]);
    assert mid.db.tasks == s.db.tasks[id := P.Project(id, s.db.tasks[id], e)];
    if e.progress.Some? {
      var report := ReportProgress(e.progress.value.0, e.progress.value.1);
      assert PlanWork(s.threads[i].task, report, mid.db.tasks[id]).Some?
        && PlanWork(s.threads[i].task, report, mid.db.tasks[id]).value.record == mid.db.tasks[id];
      hide Run;
      WorkIsStored(mid, i, id, report);
      RunAppend(s, [Do(i, apply), Store(i)], [Do(i, report), Store(i)]);
    } else {
      assert [Do(i, apply), Store(i)] + [] == [Do(i, apply), Store(i)];
    }
  }

  /** The events are offered one by one, and Gate applies each. */
  lemma {:induction false} OffersProject(s: State, i: nat, id: TaskID, events: seq<TaskEvent>)
    requires AtWork(s, i, id) && Applied(id, s.db.tasks[id], events) && forall e <- events :: CarriesProgress(e)
    ensures var after := Run(s, OfferAll(i, events));
      after.threads == s.threads && after.db.tasks == s.db.tasks[id := P.ProjectAll(id, s.db.tasks[id], events)]
  {
    if events == [] {
      assert s.db.tasks[id := s.db.tasks[id]] == s.db.tasks;
    } else {
      var n := |events| - 1;
      assert forall e <- events[..n] :: e in events;
      assert events[n] in events;
      AppliedPrefix(id, s.db.tasks[id], events);
      OffersProject(s, i, id, events[..n]);
      hide Run;
      hide P.Project;
      hide Rejects;
      OfferProjects(Run(s, OfferAll(i, events[..n])), i, id, events[n]);
      RunAppend(s, OfferAll(i, events[..n]), Offer(i, events[n]));
    }
  }

  /** The schedule of a session: its events up to the first rejected one, and the failure if there is one. */
  function Session(id: TaskID, record: TaskRecord, i: nat, events: seq<TaskEvent>): seq<Action>
  {
    var n := Passed(id, record, events);
    OfferAll(i, events[..n])
    + if n == |events| then [] else [Do(i, Fail(RejectionText(AtStop(id, record, events)))), Store(i)]
  }

  /** The failure of an execution is stored over any record that is not cancelled, and ends the execution. */
  lemma FailureStores(s: State, i: nat, id: TaskID, error: string)
    requires AtWork(s, i, id)
    ensures var after := Run(s, [Do(i, Fail(error)), Store(i)]);
      && after.threads == s.threads[i := s.threads[i].(phase := Ended(Dropped))]
      && after.db.tasks == s.db.tasks[id := Failing(s.db.tasks[id], error)]
  {
    RunPair(s, Do(i, Fail(error)), Store(i));
    var r, ended := s.db.tasks[id], s.threads[i].(phase := Ended(Dropped));
    if r.state == CancelledState {
      assert s.db.tasks[id := r] == s.db.tasks;
    } else {
      var mid := SetPhase(s, i, Writing(Fail(error), r));
      assert Applies(s.db, PlanWork(s.threads[i].task, Fail(error), r).value);
      assert mid.threads[i := ended] + [] == s.threads[i := ended];
    }
  }

  /**
   A session is a schedule of the machine: with nothing else in between, an execution at work leaves the record
   of its session, and it has ended when an event was rejected.
   */
  lemma SessionRunsSchedule(s: State, i: nat, id: TaskID, events: seq<TaskEvent>)
    requires AtWork(s, i, id) && P.CursorNamed(id, s.db.tasks[id]) && Ahead(id, s.db.tasks[id].lastSequence, events)
    requires forall e <- events :: CarriesProgress(e)
    ensures var r := s.db.tasks[id]; var after := Run(s, Session(id, r, i, events));
      && after.db.tasks == s.db.tasks[id := AfterSession(id, r, events)]
      && after.threads == if Passed(id, r, events) == |events| then s.threads
                          else s.threads[i := s.threads[i].(phase := Ended(Dropped))]
  {
    var r := s.db.tasks[id];
    var n := Passed(id, r, events);
    var offers := OfferAll(i, events[..n]);
    OffersToStop(s, i, id, events);
    hide Run;
    hide P.CursorNamed;
    hide Ahead;
    hide CarriesProgress;
    hide OfferAll;
    hide RejectionText;
    hide AtStop;
    hide Passed;
    if n == |events| {
      assert offers + [] == offers;
    } else {
      FailureFollows(s, offers, i, id, AtStop(id, r, events), RejectionText(AtStop(id, r, events)));
    }
  }

  /** The offers up to the first rejected event. */
  lemma OffersToStop(s: State, i: nat, id: TaskID, events: seq<TaskEvent>)
    requires AtWork(s, i, id) && P.CursorNamed(id, s.db.tasks[id]) && Ahead(id, s.db.tasks[id].lastSequence, events)
    requires forall e <- events :: CarriesProgress(e)
    ensures var r := s.db.tasks[id]; var after := Run(s, OfferAll(i, events[..Passed(id, r, events)]));
      after.threads == s.threads && after.db.tasks == s.db.tasks[id := AtStop(id, r, events)]
  {
    var r := s.db.tasks[id];
    var n := Passed(id, r, events);
    PassedIsApplied(id, r, events);
    assert forall e <- events[..n] :: e in events;
    hide Run;
    hide Passed;
    hide P.CursorNamed;
    hide Ahead;
    hide CarriesProgress;
    hide Applied;
    OffersProject(s, i, id, events[..n]);
  }

  lemma FailureFollows(s: State, offers: seq<Action>, i: nat, id: TaskID, mid: TaskRecord, error: string)
    requires AtWork(s, i, id)
    requires Run(s, offers).threads == s.threads && Run(s, offers).db.tasks == s.db.tasks[id := mid]
    ensures var after := Run(s, offers + [Do(i, Fail(error)), Store(i)]);
      && after.threads == s.threads[i := s.threads[i].(phase := Ended(Dropped))]
      && after.db.tasks == s.db.tasks[id := Failing(mid, error)]
  {
    hide Run;
    FailureStores(Run(s, offers), i, id, error);
    RunAppend(s, offers, [Do(i, Fail(error)), Store(i)]);
    hide Failing;
    assert s.db.tasks[id := mid][id := Failing(mid, error)] == s.db.tasks[id := Failing(mid, error)];
  }

  /** The projector stops exactly where Gate's answer names a reason and is not a duplicate. */
  lemma RejectionIsReply(db: Database, id: TaskID, e: TaskEvent)
    requires id in db.tasks
    ensures var r := db.tasks[id];
      var reply := GateService.ProjectReplyFor(db, id, ProjectionOf(e), GateService.Applied);
      && (Rejects(r, e) <==> reply.Refused? || reply.Unsupported?)
      && (Rejects(r, e) <==>
            && e.sequence > r.lastSequence && e.eventID != r.lastEventID
            && (r.state in {FinalState, FailedState, CancelledState} || e.state.Other?))
  {
  }

  // ---- What starts a task again ----

  /** The record of a task that was started again: at its cursor, with what was projected before. */
  lemma ResumptionRestarts(s: State, id: TaskID)
    requires id in s.db.tasks && s.db.tasks[id].state == FailedState
    requires s.db.tasks[id].maxAttempts > 0 ==> s.db.tasks[id].attempt < s.db.tasks[id].maxAttempts
    ensures var j := |s.threads|; var r := Restarted(s.db.tasks[id], s.db.tasks[id].attempt + 1, "");
      var after := Run(s, [Invoke(id, Resume("")), Store(j)] + [Begin(j + 1), Store(j + 1)]);
      && after.db.tasks == s.db.tasks[id := r]
      && AtWork(after, j + 1, id) && after.threads[j + 1].task.eventSequence == r.lastSequence
  {
    hide Run;
    hide Step;
    hide ReadAndStore;
    var j := |s.threads|;
    ResumeIsStored(s, id);
    RunsTwice(s, Invoke(id, Resume("")), j, Begin(j + 1), j + 1);
    var queued := ReadAndStore(s, Invoke(id, Resume("")), j);
    StartRuns(queued, j + 1, id);
  }

  /** A queued task within its budget is started by the execution that its record was handed to. */
  lemma StartRuns(s: State, i: nat, id: TaskID)
    requires id in s.db.tasks && s.db.tasks[id].state == QueuedState
    requires i < |s.threads| && s.threads[i] == Execution(TaskFor(id, s.db.tasks[id]), Spawned)
    requires s.db.tasks[id].maxAttempts > 0 ==> s.db.tasks[id].attempt < s.db.tasks[id].maxAttempts
    ensures var r := s.db.tasks[id]; var next := Restarted(r, r.attempt + 1, r.error);
      var after := ReadAndStore(s, Begin(i), i);
      && after.db.tasks == s.db.tasks[id := next]
      && AtWork(after, i, id) && after.threads[i].task.eventSequence == next.lastSequence
  {
    StartSucceeds(s, i, id);
    hide ReadAndStore;
  }

  lemma RunsTwice(s: State, a: Action, i: nat, b: Action, j: nat)
    ensures Run(s, [a, Store(i)] + [b, Store(j)]) == ReadAndStore(ReadAndStore(s, a, i), b, j)
  {
    RunPair(s, a, Store(i));
    RunPair(ReadAndStore(s, a, i), b, Store(j));
    hide Run;
    hide Step;
    RunAppend(s, [a, Store(i)], [b, Store(j)]);
  }

  /** After a lost process, recovery starts an approved task again, with the error text it had. */
  lemma RecoveryRestarts(s: State, id: TaskID)
    requires id in s.db.tasks && (s.db.tasks[id].state == QueuedState || s.db.tasks[id].state == RunningState)
    requires s.db.tasks[id].requireApproval ==> s.db.tasks[id].approvalGranted
    requires s.db.tasks[id].maxAttempts > 0 ==> s.db.tasks[id].attempt < s.db.tasks[id].maxAttempts
    ensures var j := |s.threads|; var r := s.db.tasks[id];
      var next := Restarted(r, r.attempt + 1, r.error);
      var after := Run(s, [Invoke(id, Recover), Store(j)] + [Begin(j + 1), Store(j + 1)]);
      && after.db.tasks == s.db.tasks[id := next]
      && AtWork(after, j + 1, id) && after.threads[j + 1].task.eventSequence == next.lastSequence
  {
    hide Run;
    hide Step;
    hide ReadAndStore;
    var j := |s.threads|;
    RecoveryIsStored(s, id);
    RunsTwice(s, Invoke(id, Recover), j, Begin(j + 1), j + 1);
    var queued := ReadAndStore(s, Invoke(id, Recover), j);
    StartRuns(queued, j + 1, id);
  }

  lemma RecoveryIsStored(s: State, id: TaskID)
    requires id in s.db.tasks && (s.db.tasks[id].state == QueuedState || s.db.tasks[id].state == RunningState)
    requires s.db.tasks[id].requireApproval ==> s.db.tasks[id].approvalGranted
    ensures var i := |s.threads|; var next := s.db.tasks[id].(state := QueuedState);
      var after := ReadAndStore(s, Invoke(id, Recover), i);
      && after.db.tasks == s.db.tasks[id := next]
      && after.threads == s.threads + [Gone, Execution(TaskFor(id, next), Spawned)]
  {
    var i := |s.threads|;
    var h := Handler(id, Recover, s.db.tasks[id]);
    assert Step(s, Invoke(id, Recover)).threads == s.threads + [h];
    assert (s.threads + [h])[i := Gone] == s.threads + [Gone];
  }

  // ---- An unsupported event fails a task that the log finishes ----

  function Event(id: TaskID, sequence: nat, state: EventState): TaskEvent
  {
    TaskEvent(id, EventID(id, sequence), sequence, state, "", "", None)
  }

  function Unsupported(id: TaskID): seq<TaskEvent>
  {
    [Event(id, 1, Running), Event(id, 2, Other("x")), Event(id, 3, Final)]
  }

  function FirstRun(id: TaskID): TaskRecord
  {
    Restarted(NewRecord(Sample(2)), 1, "")
  }

  /** Accepted, started, and served that stream. */
  function Rejection(id: TaskID): seq<Action>
  {
    [Accept(id, Sample(2))] + [Begin(0), Store(0)] + Session(id, FirstRun(id), 0, Unsupported(id))
  }

  lemma FirstRunState(id: TaskID)
    ensures var s := Run(INITIAL, [Accept(id, Sample(2))] + [Begin(0), Store(0)]);
      AtWork(s, 0, id) && s.db.tasks == map[id := FirstRun(id)]
  {
    var accept, begin := [Accept(id, Sample(2))], [Begin(0), Store(0)];
    GateBudget.AcceptedState(id);
    var accepted := Step(INITIAL, accept[0]);
    assert accept[..0] == [];
    assert Run(INITIAL, accept) == accepted;
    RunPair(accepted, begin[0], begin[1]);
    RunAppend(INITIAL, accept, begin);
    hide Run;
    hide Step;
    StartRuns(accepted, 0, id);
  }

  lemma UnsupportedIsAhead(id: TaskID)
    ensures P.CursorNamed(id, FirstRun(id)) && Ahead(id, 0, Unsupported(id)) && OneStream(Unsupported(id))
    ensures forall e <- Unsupported(id) :: CarriesProgress(e)
  {
    hide EventID;
  }

  lemma OnePassFinishes(id: TaskID)
    ensures P.ProjectAll(id, FirstRun(id), Unsupported(id)).state == FinalState
  {
    var r, log := FirstRun(id), Unsupported(id);
    assert log[..2][..1] == log[..1] && log[..1][..0] == [];
    assert EventID(id, 1)[|id|] == '-';
    if EventID(id, 3) == EventID(id, 1) {
      EventIDInjective(id, 3, 1);
    }
    hide EventID;
    assert P.ProjectAll(id, r, log[..1]) == r.(lastSequence := 1, lastEventID := EventID(id, 1));
    assert P.ProjectAll(id, r, log[..2]) == P.ProjectAll(id, r, log[..1]);
  }

  lemma SessionFails(id: TaskID)
    ensures AfterSession(id, FirstRun(id), Unsupported(id)).state == FailedState
  {
    var r, log := FirstRun(id), Unsupported(id);
    UnsupportedIsAhead(id);
    assert !IsSupported(log[1]) && log[1] in log && !IsTerminal(r.state) && r.lastSequence == 0;
    hide Unsupported;
    hide FirstRun;
    hide AfterSession;
    hide P.CursorNamed;
    hide Ahead;
    RunningSessionIsWholeIff(id, r, log);
  }

  /** The log runs and finishes, with one unsupported event between: one pass over it is final, the task fails. */
  lemma RejectionFailsTask(id: TaskID)
    ensures var s := Run(INITIAL, Rejection(id));
      && id in s.db.tasks && s.db.tasks[id].state == FailedState
      && P.ProjectAll(id, FirstRun(id), Unsupported(id)).state == FinalState
  {
    var r, log := FirstRun(id), Unsupported(id);
    FirstRunState(id);
    OnePassFinishes(id);
    SessionFails(id);
    UnsupportedIsAhead(id);
    assert r.lastSequence == 0;
    hide Run;
    hide Session;
    hide FirstRun;
    hide Unsupported;
    hide AfterSession;
    hide P.ProjectAll;
    hide P.CursorNamed;
    hide Ahead;
    hide CarriesProgress;
    var started := [Accept(id, Sample(2))] + [Begin(0), Store(0)];
    RunAppend(INITIAL, started, Session(id, r, 0, log));
    SessionRunsSchedule(Run(INITIAL, started), 0, id, log);
  }

  // ---- A task that its log fails, resumed, goes on where one pass has ended ----

  function Recovering(id: TaskID): seq<TaskEvent>
  {
    [Event(id, 1, Failed), Event(id, 2, Running), Event(id, 3, Final)]
  }

  /** The started task, its first stream up to the failure, and the failure of its execution. */
  function FailedOnce(id: TaskID): State
  {
    var started := Run(INITIAL, [Accept(id, Sample(2))] + [Begin(0), Store(0)]);
    Run(Run(started, Session(id, FirstRun(id), 0, Recovering(id)[..1])), [Do(0, Fail("x")), Store(0)])
  }

  /** What the resumed task starts from. */
  function SecondRun(id: TaskID): TaskRecord
  {
    Restarted(P.ProjectAll(id, FirstRun(id), Recovering(id)[..1]), 2, "")
  }

  lemma RecoveringProjects(id: TaskID)
    ensures var r, log := FirstRun(id), Recovering(id);
      && P.ProjectAll(id, r, log).state == FailedState
      && P.ProjectAll(id, r, log[..1])
         == r.(state := FailedState, error := "", lastSequence := 1, lastEventID := EventID(id, 1))
      && P.ProjectAll(id, SecondRun(id), log[1..]).state == FinalState
  {
    var r, log := FirstRun(id), Recovering(id);
    assert EventID(id, 1)[|id|] == '-';
    if EventID(id, 2) == EventID(id, 1) {
      EventIDInjective(id, 2, 1);
    }
    if EventID(id, 3) == EventID(id, 2) {
      EventIDInjective(id, 3, 2);
    }
    hide EventID;
    assert log[..1][..0] == [] && log[1..][..1] == [log[1]] && [log[1]][..0] == [];
    assert P.ProjectAll(id, r, log[..1])
      == r.(state := FailedState, error := "", lastSequence := 1, lastEventID := EventID(id, 1));
    assert P.ProjectAll(id, SecondRun(id), [log[1]]).lastEventID == EventID(id, 2);
    assert log == log[..1] + log[1..];
    P.ProjectAllAppend(id, r, log[..1], log[1..]);
    P.TerminalIgnores(id, P.ProjectAll(id, r, log[..1]), log[1..]);
  }

  lemma RecoveringIsAhead(id: TaskID)
    ensures var r, log := FirstRun(id), Recovering(id);
      && P.CursorNamed(id, r) && Ahead(id, 0, log[..1]) && OneStream(log[..1])
      && Ahead(id, 1, log[1..]) && OneStream(log[1..])
      && forall e <- log :: CarriesProgress(e) && IsSupported(e)
  {
    hide EventID;
    var log := Recovering(id);
    assert forall e <- log[..1] :: e == log[0];
    assert forall e <- log[1..] :: e == log[1] || e == log[2];
  }

  lemma FailedOnceState(id: TaskID)
    ensures var s := FailedOnce(id); var r := P.ProjectAll(id, FirstRun(id), Recovering(id)[..1]);
      && id in s.db.tasks && s.db.tasks[id] == r.(error := "x") && r.state == FailedState
      && r.attempt == 1 && r.maxAttempts == 2 && r.lastSequence == 1 && P.CursorNamed(id, r)
  {
    var first, events := FirstRun(id), Recovering(id)[..1];
    var started := Run(INITIAL, [Accept(id, Sample(2))] + [Begin(0), Store(0)]);
    FirstRunState(id);
    RecoveringProjects(id);
    RecoveringIsAhead(id);
    assert first.lastSequence == 0 && first.attempt == 1 && first.maxAttempts == 2 && first.state == RunningState;
    assert forall e <- events :: e in Recovering(id);
    hide Recovering;
    hide FirstRun;
    hide P.ProjectAll;
    hide Session;
    hide Run;
    hide AfterSession;
    hide Ahead;
    hide CarriesProgress;
    hide IsSupported;
    hide OneStream;
    RunningSessionIsWholeIff(id, first, events);
    StoppedLive(id, first, events);
    SessionRunsSchedule(started, 0, id, events);
    FailureStores(Run(started, Session(id, first, 0, events)), 0, id, "x");
  }

  lemma SecondSession(id: TaskID)
    ensures var second, events := SecondRun(id), Recovering(id)[1..];
      && P.CursorNamed(id, second) && Ahead(id, second.lastSequence, events)
      && (forall e <- events :: CarriesProgress(e))
      && AfterSession(id, second, events).state == FinalState
  {
    var second, events := SecondRun(id), Recovering(id)[1..];
    FailedOnceState(id);
    RecoveringProjects(id);
    RecoveringIsAhead(id);
    assert forall e <- events :: e in Recovering(id);
    assert P.CursorNamed(id, second) && second.lastSequence == 1 && !IsTerminal(second.state);
    hide SecondRun;
    hide Recovering;
    hide P.ProjectAll;
    hide AfterSession;
    hide Ahead;
    hide IsSupported;
    hide OneStream;
    hide P.CursorNamed;
    RunningSessionIsWholeIff(id, second, events);
  }

  /** The failed task, resumed and started again. */
  function ResumedOnce(id: TaskID): State
  {
    var j := |FailedOnce(id).threads|;
    Run(FailedOnce(id), [Invoke(id, Resume("")), Store(j)] + [Begin(j + 1), Store(j + 1)])
  }

  lemma ResumedOnceState(id: TaskID)
    ensures var s := ResumedOnce(id);
      AtWork(s, |FailedOnce(id).threads| + 1, id) && s.db.tasks[id] == SecondRun(id)
  {
    FailedOnceState(id);
    var failed := FailedOnce(id);
    assert SecondRun(id) == Restarted(failed.db.tasks[id], failed.db.tasks[id].attempt + 1, "");
    hide FailedOnce;
    hide P.ProjectAll;
    hide Run;
    hide SecondRun;
    ResumptionRestarts(failed, id);
  }

  /** One pass over the log is failed; the task, resumed after its first failure, is final. */
  lemma ResumedTaskOutlivesPass(id: TaskID)
    ensures var i := |FailedOnce(id).threads| + 1;
      var s := Run(ResumedOnce(id), Session(id, SecondRun(id), i, Recovering(id)[1..]));
      && id in s.db.tasks && s.db.tasks[id].state == FinalState
      && P.ProjectAll(id, FirstRun(id), Recovering(id)).state == FailedState
  {
    RecoveringProjects(id);
    SecondSession(id);
    ResumedOnceState(id);
    var events := Recovering(id)[1..];
    hide FailedOnce;
    hide ResumedOnce;
    hide Recovering;
    hide SecondRun;
    hide FirstRun;
    hide P.ProjectAll;
    hide Session;
    hide Run;
    hide AfterSession;
    hide Ahead;
    hide CarriesProgress;
    hide P.CursorNamed;
    SessionRunsSchedule(ResumedOnce(id), |FailedOnce(id).threads| + 1, id, events);
  }
}
