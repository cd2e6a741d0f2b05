/**
 From the agent's publishers to the Gate record: executions that each work through a subscription opened at the
 record's cursor, with what starts the task again in between, against one pass over the agent's log.
 */
module EndToEnd {
  import opened Sequences
  import opened TaskEvents
  import opened GateModel
  import opened AgentService
  import opened AgentHandoff
  import opened P = GateProjection
  import opened GateSessions
  import Agent = AgentSubscription

  /**
   The stream of an execution, which started with this attempt count and error text: Gate applied the first
   taken events it was sent as this subscriber.
   */
  datatype Stream = Stream(subscriber: nat, taken: nat, attempt: int, error: string)

  predicate Exists(s: Agent.State, stream: Stream)
  {
    && stream.subscriber < |s.subscribers| && stream.taken <= |s.subscribers[stream.subscriber].sent|
    && forall e <- s.subscribers[stream.subscriber].sent[..stream.taken] :: IsSupported(e)
  }

  function EventsOf(s: Agent.State, stream: Stream): seq<TaskEvent>
    requires Exists(s, stream)
  {
    s.subscribers[stream.subscriber].sent[..stream.taken]
  }

  /** The record as the execution of the stream starts. */
  function Opened(record: TaskRecord, stream: Stream): TaskRecord
  {
    Restarted(record, stream.attempt, stream.error)
  }

  /** The record after the streams, each one's execution starting the task again. */
  function AfterStreams(record: TaskRecord, s: Agent.State, streams: seq<Stream>): TaskRecord
    requires forall stream <- streams :: Exists(s, stream)
  {
    if streams == [] then record
    else
      var n := |streams| - 1;
      ProjectAll(s.taskID, Opened(AfterStreams(record, s, streams[..n]), streams[n]), EventsOf(s, streams[n]))
  }

  /** The stream subscribes at the record's cursor. */
  predicate StartsAt(record: TaskRecord, s: Agent.State, stream: Stream)
  {
    stream.subscriber < |s.subscribers| && s.subscribers[stream.subscriber].after == record.lastSequence
  }

  /** Each stream starts at the cursor the record has by then. */
  ghost predicate FromRecord(record: TaskRecord, s: Agent.State, streams: seq<Stream>)
  {
    && (forall stream <- streams :: Exists(s, stream))
    && (streams != [] ==>
          var n := |streams| - 1;
          FromRecord(record, s, streams[..n]) && StartsAt(AfterStreams(record, s, streams[..n]), s, streams[n]))
  }

  /** s is where the agent's schedule leads, and the pushes offered to the streams' subscribers were in turn. */
  ghost predicate Served(s: Agent.State, actions: seq<Agent.Action>, streams: seq<Stream>)
  {
    && s == Agent.Run(Agent.Initial(s.taskID), actions)
    && forall stream <- streams :: AlwaysInTurn(s.taskID, actions, stream.subscriber)
  }

  /** The record stands within the log, at a cursor it names. */
  predicate Standing(s: Agent.State, record: TaskRecord)
  {
    CursorNamed(s.taskID, record) && record.lastSequence <= |s.log|
  }

  lemma NamedIsNatural(id: TaskID, record: TaskRecord)
    requires CursorNamed(id, record)
    ensures record.lastSequence >= 0
  {
  }

  lemma OpenedStands(s: Agent.State, record: TaskRecord, stream: Stream)
    requires Standing(s, record)
    ensures Standing(s, Opened(record, stream))
  {
  }

  /** A stream from the record's cursor worked through a stretch of the agent's log. */
  lemma StreamIsStretch(s: Agent.State, actions: seq<Agent.Action>, mid: TaskRecord, stream: Stream)
    requires Served(s, actions, [stream]) && Standing(s, mid) && StartsAt(mid, s, stream) && Exists(s, stream)
    ensures mid.lastSequence + stream.taken <= |s.log|
    ensures EventsOf(s, stream) == s.log[mid.lastSequence..mid.lastSequence + stream.taken]
    ensures EventsOf(s, stream) <= UpToTerminal(EventsAfter(s.log, mid.lastSequence))
  {
    assert stream in [stream];
    SentIsSegment(s.taskID, actions, stream.subscriber);
    HandoffWhenInTurn(s.taskID, actions, stream.subscriber);
  }

  /** The last stream, on its own. */
  lemma LastStream(s: Agent.State, actions: seq<Agent.Action>, record: TaskRecord, streams: seq<Stream>)
    requires streams != [] && Served(s, actions, streams) && FromRecord(record, s, streams)
    ensures var n := |streams| - 1; var before := AfterStreams(record, s, streams[..n]);
      && Served(s, actions, streams[..n]) && FromRecord(record, s, streams[..n])
      && Served(s, actions, [streams[n]]) && Exists(s, streams[n])
      && StartsAt(before, s, streams[n]) && StartsAt(Opened(before, streams[n]), s, streams[n])
      && AfterStreams(record, s, streams) == ProjectAll(s.taskID, Opened(before, streams[n]), EventsOf(s, streams[n]))
  {
    assert streams[|streams| - 1] in streams;
    hide Agent.Run;
    hide AlwaysInTurn;
  }

  lemma StreamStands(s: Agent.State, actions: seq<Agent.Action>, mid: TaskRecord, stream: Stream)
    requires Served(s, actions, [stream]) && Dense(s.taskID, s.log) && Standing(s, mid)
    requires StartsAt(mid, s, stream) && Exists(s, stream)
    ensures Standing(s, ProjectAll(s.taskID, mid, EventsOf(s, stream)))
  {
    NamedIsNatural(s.taskID, mid);
    StreamIsStretch(s, actions, mid, stream);
    StretchCursor(s.taskID, mid, s.log, stream.taken);
  }

  /** Whatever the streams took, the record stands within the log. */
  lemma {:induction false} StreamsStand(s: Agent.State, actions: seq<Agent.Action>, record: TaskRecord,
                                        streams: seq<Stream>)
    requires Served(s, actions, streams) && Standing(s, record) && FromRecord(record, s, streams)
    ensures Dense(s.taskID, s.log) && Standing(s, AfterStreams(record, s, streams))
  {
    Agent.SentIsIncreasing(s.taskID, actions);
    if streams != [] {
      LastStream(s, actions, record, streams);
      hide Served;
      hide FromRecord;
      hide AfterStreams;
      hide Exists;
      hide StartsAt;
      var n := |streams| - 1;
      StreamsStand(s, actions, record, streams[..n]);
      StreamStands(s, actions, Opened(AfterStreams(record, s, streams[..n]), streams[n]), streams[n]);
    }
  }

  // ---- Alike up to what a restart changes ----

  /** Equal but for the attempt count, the error text, and which state a task that has not ended is in. */
  predicate Alike(a: TaskRecord, b: TaskRecord)
  {
    && a.(attempt := b.attempt, error := b.error, state := b.state) == b
    && (a.state == b.state || (!IsTerminal(a.state) && !IsTerminal(b.state)))
  }

  lemma AlikeProjected(a: TaskRecord, b: TaskRecord, e: Projection)
    requires Alike(a, b)
    ensures Projected(a, e).Some? <==> Projected(b, e).Some?
    ensures Projected(a, e).Some? ==> Alike(Projected(a, e).value, Projected(b, e).value)
  {
    match e.state {
      case Running =>
      case Queued =>
      case Progress =>
      case Final =>
      case Failed =>
      case Other(_) =>
    }
  }

  lemma AlikeProject(id: TaskID, a: TaskRecord, b: TaskRecord, e: TaskEvent)
    requires Alike(a, b)
    ensures Alike(P.Project(id, a, e), P.Project(id, b, e))
  {
    AlikeProjected(a, b, ProjectionOf(e));
    assert IsTerminal(a.state) <==> IsTerminal(b.state);
    hide Projected;
    hide IsTerminal;
  }

  lemma {:induction false} AlikeAll(id: TaskID, a: TaskRecord, b: TaskRecord, events: seq<TaskEvent>)
    requires Alike(a, b)
    ensures Alike(ProjectAll(id, a, events), ProjectAll(id, b, events))
  {
    if events != [] {
      var n := |events| - 1;
      AlikeAll(id, a, b, events[..n]);
      hide P.Project;
      hide Alike;
      AlikeProject(id, ProjectAll(id, a, events[..n]), ProjectAll(id, b, events[..n]), events[n]);
    }
  }

  // ---- While no stream has ended the task ----

  /** The stream took a terminal event. */
  ghost predicate Ends(s: Agent.State, stream: Stream)
    requires Exists(s, stream)
  {
    exists e <- EventsOf(s, stream) :: IsTerminalEvent(e.state)
  }

  ghost predicate SomeEnded(s: Agent.State, streams: seq<Stream>)
    requires forall stream <- streams :: Exists(s, stream)
  {
    exists stream <- streams :: Ends(s, stream)
  }

  /** A stream from a record that is alike the one of some sessions is one more session. */
  lemma StreamIsSession(s: Agent.State, actions: seq<Agent.Action>, record: TaskRecord, sessions: seq<Session>,
                        before: TaskRecord, stream: Stream)
    returns (more: seq<Session>)
    requires Served(s, actions, [stream]) && Dense(s.taskID, s.log) && FromCursors(s.taskID, record, s.log, sessions)
    requires Standing(s, before) && StartsAt(before, s, stream) && Exists(s, stream) && !IsTerminal(before.state)
    requires Alike(before, P.Resumed(s.taskID, record, s.log, sessions))
    ensures FromCursors(s.taskID, record, s.log, more)
    ensures Alike(ProjectAll(s.taskID, Opened(before, stream), EventsOf(s, stream)),
                  P.Resumed(s.taskID, record, s.log, more))
  {
    hide CursorNamed;
    hide UpToTerminal;
    hide EventsAfter;
    hide Dense;
    hide AlwaysInTurn;
    hide Agent.Run;
    var c := before.lastSequence;
    NamedIsNatural(s.taskID, before);
    StreamIsStretch(s, actions, before, stream);
    RestartIsAlike(before, stream, P.Resumed(s.taskID, record, s.log, sessions));
    hide Served;
    hide Exists;
    hide StartsAt;
    hide Standing;
    hide FromCursors;
    hide P.Resumed;
    hide Alike;
    hide Opened;
    more := sessions + [Session(c, c + stream.taken)];
    SessionIsAdded(s.taskID, record, s.log, sessions, c, stream.taken);
    AlikeAll(s.taskID, Opened(before, stream), P.Resumed(s.taskID, record, s.log, sessions), EventsOf(s, stream));
  }

  lemma RestartIsAlike(before: TaskRecord, stream: Stream, other: TaskRecord)
    requires !IsTerminal(before.state) && Alike(before, other)
    ensures Alike(Opened(before, stream), other) && before.lastSequence == other.lastSequence
  {
  }

  /**
   While no stream has ended the task, the streams and their restarts leave the record that the bare sessions of
   the projection leave, up to what a restart changes.
   */
  lemma {:induction false} StreamsAreSessions(s: Agent.State, actions: seq<Agent.Action>, record: TaskRecord,
                                              streams: seq<Stream>)
    returns (sessions: seq<Session>)
    requires Served(s, actions, streams) && Standing(s, record) && FromRecord(record, s, streams)
    requires !IsTerminal(record.state) && !SomeEnded(s, streams)
    ensures Dense(s.taskID, s.log) && FromCursors(s.taskID, record, s.log, sessions)
    ensures Alike(AfterStreams(record, s, streams), P.Resumed(s.taskID, record, s.log, sessions))
    ensures !IsTerminal(AfterStreams(record, s, streams).state)
  {
    StreamsStand(s, actions, record, streams);
    if streams == [] {
      sessions := [];
    } else {
      var n := |streams| - 1;
      LastStream(s, actions, record, streams);
      StreamsStand(s, actions, record, streams[..n]);
      assert streams[n] in streams && !Ends(s, streams[n]) && forall stream <- streams[..n] :: stream in streams;
      assert !SomeEnded(s, streams[..n]);
      hide Served;
      hide FromRecord;
      hide AfterStreams;
      hide Exists;
      hide StartsAt;
      hide CursorNamed;
      hide SomeEnded;
      hide Alike;
      hide FromCursors;
      hide P.Resumed;
      QuietStaysLive(s.taskID, Opened(AfterStreams(record, s, streams[..n]), streams[n]), EventsOf(s, streams[n]));
      var prior := StreamsAreSessions(s, actions, record, streams[..n]);
      sessions := StreamIsSession(s, actions, record, prior, AfterStreams(record, s, streams[..n]), streams[n]);
    }
  }

  lemma SessionIsAdded(id: TaskID, record: TaskRecord, log: seq<TaskEvent>, before: seq<Session>, c: nat, n: nat)
    requires FromCursors(id, record, log, before) && c + n <= |log|
    requires c == P.Resumed(id, record, log, before).lastSequence
    ensures var sessions := before + [Session(c, c + n)]; var after := P.Resumed(id, record, log, before);
      && FromCursors(id, record, log, sessions)
      && P.Resumed(id, record, log, sessions) == ProjectAll(id, after, log[c..c + n])
  {
    var sessions := before + [Session(c, c + n)];
    assert sessions[..|before|] == before && sessions[|before|] == Session(c, c + n);
    hide ProjectAll;
  }

  // ---- The stream that completes the pass ----

  /** The subscriber has been sent all it will be: its stream ended, or it is drained with nothing left to push. */
  predicate Complete(s: Agent.State, k: nat)
    requires k < |s.subscribers|
  {
    s.subscribers[k].status.Ended? || Drained(s, s.subscribers[k])
  }

  /** While no stream has ended the task, what lies ahead up to the first terminal event completes the pass. */
  lemma StretchIsPass(s: Agent.State, actions: seq<Agent.Action>, record: TaskRecord, streams: seq<Stream>,
                      next: Stream)
    requires Served(s, actions, streams) && Standing(s, record) && FromRecord(record, s, streams)
    requires !IsTerminal(record.state) && !SomeEnded(s, streams)
    ensures var before := AfterStreams(record, s, streams);
      Alike(ProjectAll(s.taskID, Opened(before, next), UpToTerminal(EventsAfter(s.log, before.lastSequence))),
            ProjectAll(s.taskID, record, s.log))
  {
    var before := AfterStreams(record, s, streams);
    var sessions := StreamsAreSessions(s, actions, record, streams);
    var resumed := P.Resumed(s.taskID, record, s.log, sessions);
    hide Served;
    hide FromRecord;
    hide AfterStreams;
    hide SomeEnded;
    RestartIsAlike(before, next, resumed);
    SubscriptionCompletesPass(s.taskID, record, s.log, sessions);
    hide P.Resumed;
    hide Alike;
    hide UpToTerminal;
    hide EventsAfter;
    hide ProjectAll;
    hide FromCursors;
    hide Opened;
    AlikeAll(s.taskID, Opened(before, next), resumed, UpToTerminal(EventsAfter(s.log, before.lastSequence)));
  }

  // ---- Once a stream has ended the task ----

  /** A beginning of what lies ahead that holds a terminal event is all of it up to that event. */
  lemma {:induction false} EndIsWhole(events: seq<TaskEvent>, cut: seq<TaskEvent>)
    requires cut <= UpToTerminal(events) && exists e <- cut :: IsTerminalEvent(e.state)
    ensures cut == UpToTerminal(events) && cut != [] && IsTerminalEvent(cut[|cut| - 1].state)
  {
    if events != [] && !IsTerminalEvent(events[0].state) {
      assert cut == [cut[0]] + cut[1..];
      EndIsWhole(events[1..], cut[1..]);
    }
  }

  /** Equal but for what a restart changes. */
  predicate SameButLife(a: TaskRecord, b: TaskRecord)
  {
    a.(attempt := b.attempt, error := b.error, state := b.state) == b
  }

  /** The next event of the log beyond the cursor is one that Gate does not support. */
  predicate Blocked(s: Agent.State, record: TaskRecord)
  {
    0 <= record.lastSequence < |s.log| && !IsSupported(s.log[record.lastSequence])
  }

  /** The pass has ended; the record is beyond it, unless nothing more was applied, as when the log is blocked there. */
  predicate Beyond(s: Agent.State, record: TaskRecord, pass: TaskRecord)
  {
    && IsTerminal(pass.state) && record.lastSequence >= pass.lastSequence
    && (record.lastSequence == pass.lastSequence ==> SameButLife(record, pass))
    && (Blocked(s, pass) ==> record.lastSequence == pass.lastSequence)
  }

  lemma FirstIsSupported(s: Agent.State, stream: Stream)
    requires Exists(s, stream) && stream.taken > 0
    ensures IsSupported(EventsOf(s, stream)[0])
  {
    assert EventsOf(s, stream)[0] in EventsOf(s, stream);
  }

  lemma BlockedTakesNothing(s: Agent.State, actions: seq<Agent.Action>, before: TaskRecord, stream: Stream)
    requires Served(s, actions, [stream]) && Standing(s, before) && StartsAt(before, s, stream) && Exists(s, stream)
    requires Blocked(s, before)
    ensures stream.taken == 0
  {
    if stream.taken > 0 {
      FirstIsSupported(s, stream);
    }
    StreamIsStretch(s, actions, before, stream);
  }

  lemma BeyondStays(s: Agent.State, actions: seq<Agent.Action>, before: TaskRecord, stream: Stream, pass: TaskRecord)
    requires Served(s, actions, [stream]) && Standing(s, before) && StartsAt(before, s, stream) && Exists(s, stream)
    requires Beyond(s, before, pass)
    ensures Beyond(s, ProjectAll(s.taskID, Opened(before, stream), EventsOf(s, stream)), pass)
  {
    var started, events := Opened(before, stream), EventsOf(s, stream);
    CursorGrows(s.taskID, started, events);
    StaysOrMoves(s.taskID, started, events);
    if Blocked(s, pass) {
      BlockedTakesNothing(s, actions, before, stream);
    }
    assert stream.taken == 0 ==> events == [];
    hide Served;
  }

  /** The first stream that ends the task has completed the pass. */
  lemma EndingStream(s: Agent.State, actions: seq<Agent.Action>, record: TaskRecord, streams: seq<Stream>)
    requires Served(s, actions, streams) && Standing(s, record) && FromRecord(record, s, streams)
    requires !IsTerminal(record.state) && streams != [] && Ends(s, streams[|streams| - 1])
    requires !SomeEnded(s, streams[..|streams| - 1])
    ensures Beyond(s, AfterStreams(record, s, streams), ProjectAll(s.taskID, record, s.log))
  {
    var n := |streams| - 1;
    LastStream(s, actions, record, streams);
    StreamsStand(s, actions, record, streams[..n]);
    var before := AfterStreams(record, s, streams[..n]);
    StretchIsPass(s, actions, record, streams[..n], streams[n]);
    hide FromRecord;
    hide AfterStreams;
    StreamEnds(s, actions, before, streams[n]);
    hide Ends;
    hide SomeEnded;
    hide Served;
    var after := ProjectAll(s.taskID, Opened(before, streams[n]), EventsOf(s, streams[n]));
    assert Alike(after, ProjectAll(s.taskID, record, s.log)) && IsTerminal(after.state);
  }

  lemma StreamEnds(s: Agent.State, actions: seq<Agent.Action>, before: TaskRecord, stream: Stream)
    requires Served(s, actions, [stream]) && Dense(s.taskID, s.log) && Standing(s, before)
    requires StartsAt(before, s, stream) && Exists(s, stream) && Ends(s, stream)
    ensures EventsOf(s, stream) == UpToTerminal(EventsAfter(s.log, before.lastSequence))
    ensures IsTerminal(ProjectAll(s.taskID, Opened(before, stream), EventsOf(s, stream)).state)
  {
    hide CursorNamed;
    hide UpToTerminal;
    hide EventsAfter;
    hide Dense;
    hide AlwaysInTurn;
    hide Agent.Run;
    hide IsTerminalEvent;
    var c, n := before.lastSequence, stream.taken - 1;
    NamedIsNatural(s.taskID, before);
    StreamIsStretch(s, actions, before, stream);
    EndIsWhole(EventsAfter(s.log, c), EventsOf(s, stream));
    OpenedStands(s, before, stream);
    hide Served;
    hide Exists;
    assert IsTerminalEvent(s.log[c + n].state);
    StretchSettles(s.taskID, Opened(before, stream), s.log, n);
  }

  lemma {:induction false} EndedIsBeyond(s: Agent.State, actions: seq<Agent.Action>, record: TaskRecord,
                                         streams: seq<Stream>)
    requires Served(s, actions, streams) && Standing(s, record) && FromRecord(record, s, streams)
    requires !IsTerminal(record.state) && SomeEnded(s, streams)
    ensures Beyond(s, AfterStreams(record, s, streams), ProjectAll(s.taskID, record, s.log))
  {
    var n := |streams| - 1;
    LastStream(s, actions, record, streams);
    if SomeEnded(s, streams[..n]) {
      EndedIsBeyond(s, actions, record, streams[..n]);
      StreamsStand(s, actions, record, streams[..n]);
      hide Served;
      hide FromRecord;
      hide AfterStreams;
      hide Beyond;
      hide StartsAt;
      hide Exists;
      BeyondStays(s, actions, AfterStreams(record, s, streams[..n]), streams[n], ProjectAll(s.taskID, record, s.log));
    } else {
      assert streams == streams[..n] + [streams[n]];
      assert Ends(s, streams[n]);
      EndingStream(s, actions, record, streams);
    }
  }

  // ---- Executions against one pass ----

  lemma {:induction false} UpToTerminalIsAhead(id: TaskID, log: seq<TaskEvent>, cursor: nat)
    requires Dense(id, log)
    ensures Ahead(id, cursor, UpToTerminal(EventsAfter(log, cursor)))
  {
    UpToTerminalIsPrefix(EventsAfter(log, cursor));
    var all, cut := EventsAfter(log, cursor), UpToTerminal(EventsAfter(log, cursor));
    assert forall i :: 0 <= i < |cut| ==> cut[i] == all[i];
    assert forall i :: 0 <= i < |all| ==> all[i].sequence == |log| - |all| + i + 1;
  }

  lemma {:induction false} UpToTerminalIsOneStream(events: seq<TaskEvent>)
    ensures OneStream(UpToTerminal(events))
  {
    if events != [] && !IsTerminalEvent(events[0].state) {
      UpToTerminalIsOneStream(events[1..]);
      assert UpToTerminal(events) == [events[0]] + UpToTerminal(events[1..]);
    }
  }

  /** From a record at work that stands within the log, over all that lies ahead up to the first terminal event. */
  lemma SentIsSession(s: Agent.State, mid: TaskRecord)
    requires Dense(s.taskID, s.log) && Standing(s, mid) && !IsTerminal(mid.state)
    ensures var sent := UpToTerminal(EventsAfter(s.log, mid.lastSequence)); var n := Passed(s.taskID, mid, sent);
      && LeadsTo(s.taskID, mid, sent, n, AtStop(s.taskID, mid, sent))
      && (n < |sent| ==> !IsTerminal(AtStop(s.taskID, mid, sent).state) && !IsSupported(sent[n]))
      && (n == |sent| <==> forall e <- sent :: IsSupported(e))
      && (mid.lastSequence < |s.log| ==> sent != [] && sent[0] == s.log[mid.lastSequence])
      && (sent != [] ==> mid.lastSequence < |s.log|)
  {
    NamedIsNatural(s.taskID, mid);
    UpToTerminalIsAhead(s.taskID, s.log, mid.lastSequence);
    UpToTerminalIsOneStream(EventsAfter(s.log, mid.lastSequence));
    var sent := UpToTerminal(EventsAfter(s.log, mid.lastSequence));
    UpToTerminalIsPrefix(EventsAfter(s.log, mid.lastSequence));
    StopShape(s.taskID, mid, sent);
    StoppedLive(s.taskID, mid, sent);
  }

  /** A failure stored where the pass went on, or did not end, is not what the pass left. */
  lemma FailureIsUnlike(stop: TaskRecord, later: TaskRecord, pass: TaskRecord, error: string)
    requires !IsTerminal(stop.state) && (later == stop || later.lastSequence > stop.lastSequence)
    requires Alike(later, pass)
    ensures !Alike(Failing(stop, error), pass)
  {
  }

  /** While no stream has ended the task: the last execution leaves the record of the pass iff nothing was rejected. */
  lemma LiveSessionIff(s: Agent.State, mid: TaskRecord, pass: TaskRecord)
    requires Dense(s.taskID, s.log) && Standing(s, mid) && !IsTerminal(mid.state)
    requires Alike(ProjectAll(s.taskID, mid, UpToTerminal(EventsAfter(s.log, mid.lastSequence))), pass)
    ensures var sent := UpToTerminal(EventsAfter(s.log, mid.lastSequence));
      Alike(AfterSession(s.taskID, mid, sent), pass) <==> Passed(s.taskID, mid, sent) == |sent|
  {
    var sent := UpToTerminal(EventsAfter(s.log, mid.lastSequence));
    var n, stop := Passed(s.taskID, mid, sent), AtStop(s.taskID, mid, sent);
    SentIsSession(s, mid);
    if n == |sent| {
      assert sent[..|sent|] == sent;
    } else {
      hide LeadsTo;
      hide ProjectAll;
      hide Passed;
      hide UpToTerminal;
      hide EventsAfter;
      hide RejectionText;
      hide CursorNamed;
      hide Dense;
      hide Alike;
      PassGoesOn(s.taskID, mid, sent);
      StaysOrMoves(s.taskID, stop, sent[n..]);
      FailureIsUnlike(stop, ProjectAll(s.taskID, mid, sent), pass, RejectionText(stop));
    }
  }

  /** Work that stays or goes on beyond an ended pass is not what the pass left. */
  lemma WorkIsUnlike(s: Agent.State, mid: TaskRecord, later: TaskRecord, pass: TaskRecord)
    requires !IsTerminal(mid.state) && Beyond(s, mid, pass)
    requires later == mid || later.lastSequence > mid.lastSequence
    ensures !Alike(later, pass)
  {
  }

  /** A failure beyond an ended pass is what the pass left iff it comes at once and the pass had failed. */
  lemma FailureIsAlikeIff(s: Agent.State, mid: TaskRecord, stop: TaskRecord, pass: TaskRecord, error: string)
    requires !IsTerminal(mid.state) && Beyond(s, mid, pass) && !IsTerminal(stop.state)
    requires stop == mid || stop.lastSequence > mid.lastSequence
    ensures Alike(Failing(stop, error), pass) <==>
      stop == mid && mid.lastSequence == pass.lastSequence && pass.state == FailedState
  {
  }

  /** Once a stream has ended the task: the last execution leaves the record of the pass iff it failed on the spot. */
  lemma EndedSessionIff(s: Agent.State, mid: TaskRecord, pass: TaskRecord)
    requires Dense(s.taskID, s.log) && Standing(s, mid) && !IsTerminal(mid.state)
    requires Beyond(s, mid, pass) && pass.lastSequence >= 0
    ensures var sent := UpToTerminal(EventsAfter(s.log, mid.lastSequence));
      Alike(AfterSession(s.taskID, mid, sent), pass) <==> pass.state == FailedState && Blocked(s, pass)
  {
    var sent := UpToTerminal(EventsAfter(s.log, mid.lastSequence));
    var n, stop := Passed(s.taskID, mid, sent), AtStop(s.taskID, mid, sent);
    SentIsSession(s, mid);
    BlockedIffAtOnce(s, mid, pass);
    hide Passed;
    hide UpToTerminal;
    hide EventsAfter;
    hide RejectionText;
    hide CursorNamed;
    hide Dense;
    hide Rejects;
    hide IsSupported;
    hide Blocked;
    if n == |sent| {
      StaysOrMoves(s.taskID, mid, sent);
      assert sent[..|sent|] == sent;
      hide ProjectAll;
      WorkIsUnlike(s, mid, stop, pass);
    } else {
      hide ProjectAll;
      FailureIsAlikeIff(s, mid, stop, pass, RejectionText(stop));
      hide Alike;
    }
  }

  /** The pass is blocked exactly when the stream from mid is stopped at its first event, where the pass ended. */
  lemma BlockedIffAtOnce(s: Agent.State, mid: TaskRecord, pass: TaskRecord)
    requires Dense(s.taskID, s.log) && Standing(s, mid) && !IsTerminal(mid.state)
    requires Beyond(s, mid, pass) && pass.lastSequence >= 0
    ensures var sent := UpToTerminal(EventsAfter(s.log, mid.lastSequence));
      var n, stop := Passed(s.taskID, mid, sent), AtStop(s.taskID, mid, sent);
      Blocked(s, pass) <==> n < |sent| && stop == mid && mid.lastSequence == pass.lastSequence
  {
    var sent := UpToTerminal(EventsAfter(s.log, mid.lastSequence));
    var n := Passed(s.taskID, mid, sent);
    SentIsSession(s, mid);
    if n > 0 {
      assert sent[..n][0] in sent[..n];
    }
    hide Passed;
    hide UpToTerminal;
    hide EventsAfter;
    hide AtStop;
    hide CursorNamed;
    hide Dense;
    hide Rejects;
    hide SameButLife;
  }

  /** What a subscriber opened at the record's cursor is sent in all. */
  lemma SentIsAhead(s: Agent.State, actions: seq<Agent.Action>, record: TaskRecord, last: Stream)
    requires Served(s, actions, [last]) && StartsAt(record, s, last) && Complete(s, last.subscriber)
    ensures Dense(s.taskID, s.log)
    ensures s.subscribers[last.subscriber].sent == UpToTerminal(EventsAfter(s.log, record.lastSequence))
  {
    assert last in [last];
    Agent.SentIsIncreasing(s.taskID, actions);
    HandoffWhenInTurn(s.taskID, actions, last.subscriber);
  }

  lemma ServedParts(s: Agent.State, actions: seq<Agent.Action>, streams: seq<Stream>, last: Stream)
    requires Served(s, actions, streams + [last])
    ensures Served(s, actions, streams) && Served(s, actions, [last])
  {
    assert last in streams + [last] && forall stream <- streams :: stream in streams + [last];
    hide Agent.Run;
    hide AlwaysInTurn;
  }

  /**
   End to end: executions with streams opened at the record's cursor, each one started again after the one before
   it broke off or ended the task, and a last one that works through its stream until the stream is done or an
   event is rejected. Up to what a restart changes, they leave the record of one pass over the agent's log:
   - while no earlier stream has ended the task, if and only if no event was rejected;
   - once one has, if and only if the pass failed and the log goes on with an unsupported event.
   */
  lemma ExecutionsRefineOnePassIff(s: Agent.State, actions: seq<Agent.Action>, record: TaskRecord,
                                   streams: seq<Stream>, last: Stream)
    requires Served(s, actions, streams + [last]) && Standing(s, record) && FromRecord(record, s, streams)
    requires !IsTerminal(record.state)
    requires StartsAt(AfterStreams(record, s, streams), s, last) && Complete(s, last.subscriber)
    ensures var sent := s.subscribers[last.subscriber].sent;
      var started := Opened(AfterStreams(record, s, streams), last);
      var pass := ProjectAll(s.taskID, record, s.log);
      Alike(AfterSession(s.taskID, started, sent), pass) <==>
        if !SomeEnded(s, streams) then forall e <- sent :: IsSupported(e)
        else pass.state == FailedState && Blocked(s, pass)
  {
    var before := AfterStreams(record, s, streams);
    var started, pass := Opened(before, last), ProjectAll(s.taskID, record, s.log);
    ServedParts(s, actions, streams, last);
    StreamsStand(s, actions, record, streams);
    SentIsAhead(s, actions, before, last);
    OpenedStands(s, before, last);
    hide Alike;
    hide Blocked;
    if SomeEnded(s, streams) {
      EndedIsBeyond(s, actions, record, streams);
      BeyondRestart(s, before, last, pass);
      NamedIsNatural(s.taskID, record);
      CursorGrows(s.taskID, record, s.log);
      hide Served;
      hide FromRecord;
      hide AfterStreams;
      hide ProjectAll;
      hide UpToTerminal;
      hide EventsAfter;
      hide CursorNamed;
      EndedSessionIff(s, started, pass);
    } else {
      StretchIsPass(s, actions, record, streams, last);
      hide Served;
      hide FromRecord;
      hide AfterStreams;
      hide ProjectAll;
      hide UpToTerminal;
      hide EventsAfter;
      hide CursorNamed;
      LiveSessionIff(s, started, pass);
      SentIsSession(s, started);
    }
  }

  lemma BeyondRestart(s: Agent.State, record: TaskRecord, stream: Stream, pass: TaskRecord)
    requires Beyond(s, record, pass)
    ensures Beyond(s, Opened(record, stream), pass)
  {
  }

  // ---- The part of the log that counts ----

  /** Streams after others are streams from the record that their first execution started with. */
  lemma {:induction false} LaterStreams(record: TaskRecord, s: Agent.State, first: seq<Stream>, rest: seq<Stream>,
                                        base: TaskRecord)
    requires FromRecord(record, s, first + rest)
    ensures FromRecord(record, s, first) && forall stream <- rest :: Exists(s, stream)
    ensures rest != [] && base == Opened(AfterStreams(record, s, first), rest[0]) ==>
      FromRecord(base, s, rest) && AfterStreams(base, s, rest) == AfterStreams(record, s, first + rest)
  {
    if rest == [] {
      assert first + rest == first;
    } else {
      var n := |rest| - 1;
      assert forall stream <- rest :: stream in first + rest;
      assert (first + rest)[..|first| + n] == first + rest[..n] && (first + rest)[|first| + n] == rest[n];
      LaterStreams(record, s, first, rest[..n], base);
      if n == 0 {
        assert rest[..0] == [] && first + [] == first;
      }
      hide Exists;
      hide ProjectAll;
    }
  }

  /**
   Whatever the first streams ended: while none of the streams after them ends the task, the last execution leaves
   the record of one pass from where they restarted, if and only if no event of its stream was rejected.
   */
  lemma LastLifeRefinesOnePassIff(s: Agent.State, actions: seq<Agent.Action>, record: TaskRecord,
                                  first: seq<Stream>, rest: seq<Stream>, last: Stream)
    requires Served(s, actions, first + rest + [last]) && Standing(s, record) && FromRecord(record, s, first + rest)
    requires (forall stream <- rest :: Exists(s, stream)) && !SomeEnded(s, rest)
    requires StartsAt(AfterStreams(record, s, first + rest), s, last) && Complete(s, last.subscriber)
    ensures FromRecord(record, s, first)
    ensures var sent := s.subscribers[last.subscriber].sent;
      var started := Opened(AfterStreams(record, s, first + rest), last);
      var restarted := Opened(AfterStreams(record, s, first), if rest == [] then last else rest[0]);
      Alike(AfterSession(s.taskID, started, sent), ProjectAll(s.taskID, restarted, s.log)) <==>
        forall e <- sent :: IsSupported(e)
  {
    var next := if rest == [] then last else rest[0];
    LaterStreams(record, s, first, rest, Opened(AfterStreams(record, s, first), next));
    var base := Opened(AfterStreams(record, s, first), next);
    assert forall stream <- first :: stream in first + rest + [last];
    assert forall stream <- rest + [last] :: stream in first + rest + [last];
    assert rest == [] ==> first + rest == first;
    StreamsStand(s, actions, record, first);
    OpenedStands(s, AfterStreams(record, s, first), next);
    hide AlwaysInTurn;
    hide Agent.Run;
    hide ProjectAll;
    hide AfterSession;
    hide Alike;
    hide Complete;
    assert Served(s, actions, rest + [last]);
    ExecutionsRefineOnePassIff(s, actions, base, rest, last);
  }

  /**
   One execution, whatever its task has become by then: it leaves exactly the record of one pass over the agent's
   log if and only if no event was rejected, the task was cancelled, or it had failed with the very same text.
   */
  lemma StoppedStreamIsWholeIff(s: Agent.State, actions: seq<Agent.Action>, record: TaskRecord, last: Stream)
    requires Served(s, actions, [last]) && Standing(s, record) && StartsAt(record, s, last)
    requires Complete(s, last.subscriber)
    ensures var sent := s.subscribers[last.subscriber].sent; var stop := AtStop(s.taskID, record, sent);
      AfterSession(s.taskID, record, sent) == ProjectAll(s.taskID, record, s.log) <==>
      || Passed(s.taskID, record, sent) == |sent|
      || stop.state == CancelledState
      || (stop.state == FailedState && stop.error == RejectionText(stop))
  {
    var sent := s.subscribers[last.subscriber].sent;
    SentIsAhead(s, actions, record, last);
    hide Served;
    hide Complete;
    assert P.Resumed(s.taskID, record, s.log, []) == record;
    SubscriptionCompletesPass(s.taskID, record, s.log, []);
    hide UpToTerminal;
    hide EventsAfter;
    hide ProjectAll;
    hide AfterSession;
    hide AtStop;
    hide Passed;
    hide RejectionText;
    StopIsHarmlessIff(s.taskID, record, sent);
  }
}
