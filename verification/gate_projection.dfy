/** A cursor makes redelivered events harmless: any number of broken-off sessions project like one pass. */
module GateProjection {
  import opened Sequences
  import opened TaskEvents
  import opened GateModel
  import opened AgentService

  /** The record one projection call leaves when nothing interferes. */
  function Project(id: TaskID, record: TaskRecord, e: TaskEvent): TaskRecord
  {
    match PlanProjection(id, ProjectionOf(e), record)
    case None => record
    case Some(w) => w.record
  }

  function ProjectAll(id: TaskID, record: TaskRecord, events: seq<TaskEvent>): TaskRecord
  {
    if events == [] then record
    else Project(id, ProjectAll(id, record, events[..|events| - 1]), events[|events| - 1])
  }

  /** A projection either does nothing or moves the cursor onto its event. */
  lemma ProjectMoves(id: TaskID, record: TaskRecord, e: TaskEvent)
    ensures var next := Project(id, record, e);
      next == record ||
      (!IsTerminal(record.state) && record.lastSequence < e.sequence == next.lastSequence
       && next.lastEventID == e.eventID)
  {
    var p := ProjectionOf(e);
    assert p.sequence == e.sequence && p.eventID == e.eventID;
  }

  /** An event at or behind the cursor is a duplicate. */
  lemma BehindIsIgnored(id: TaskID, record: TaskRecord, e: TaskEvent)
    requires e.sequence <= record.lastSequence || IsTerminal(record.state)
    ensures Project(id, record, e) == record
  {
  }

  predicate Numbered(log: seq<TaskEvent>)
  {
    forall i :: 0 <= i < |log| ==> log[i].sequence == i + 1
  }

  /** An event that a pass has offered changes nothing when offered again, whatever became of it the first time. */
  lemma {:induction false} ReofferingIsHarmless(id: TaskID, record: TaskRecord, log: seq<TaskEvent>, k: nat, j: nat)
    requires Numbered(log) && j < k <= |log|
    ensures Project(id, ProjectAll(id, record, log[..k]), log[j]) == ProjectAll(id, record, log[..k])
  {
    assert log[..k][..k - 1] == log[..k - 1];
    var before, now := ProjectAll(id, record, log[..k - 1]), ProjectAll(id, record, log[..k]);
    ProjectMoves(id, before, log[k - 1]);
    if j < k - 1 {
      ReofferingIsHarmless(id, record, log, k - 1, j);
    }
    if now != before {
      BehindIsIgnored(id, now, log[j]);
    }
  }

  lemma {:induction false} CursorIsBounded(id: TaskID, record: TaskRecord, log: seq<TaskEvent>, k: nat)
    requires Numbered(log) && record.lastSequence <= k <= |log|
    ensures ProjectAll(id, record, log[..k]).lastSequence <= k
  {
    if k > 0 {
      assert log[..k][..k - 1] == log[..k - 1];
      ProjectMoves(id, ProjectAll(id, record, log[..k - 1]), log[k - 1]);
      if record.lastSequence <= k - 1 {
        CursorIsBounded(id, record, log, k - 1);
      } else {
        SeenIsIgnored(id, record, log, k);
      }
    }
  }

  /** The part of the log up to the cursor changes nothing. */
  lemma {:induction false} SeenIsIgnored(id: TaskID, record: TaskRecord, log: seq<TaskEvent>, k: nat)
    requires Numbered(log) && k <= |log| && k <= record.lastSequence
    ensures ProjectAll(id, record, log[..k]) == record
  {
    if k > 0 {
      assert log[..k][..k - 1] == log[..k - 1];
      SeenIsIgnored(id, record, log, k - 1);
      BehindIsIgnored(id, record, log[k - 1]);
    }
  }

  function Max(a: int, b: int): int
  {
    if a < b then b else a
  }

  lemma LastOfSlice(log: seq<TaskEvent>, from: nat, to: nat)
    requires from < to <= |log|
    ensures var part := log[from..to]; part[..|part| - 1] == log[from..to - 1] && part[|part| - 1] == log[to - 1]
  {
  }

  /** The last event of a stretch is projected onto what the others leave. */
  lemma ProjectLast(id: TaskID, record: TaskRecord, log: seq<TaskEvent>, from: nat, to: nat)
    requires from < to <= |log|
    ensures ProjectAll(id, record, log[from..to]) == Project(id, ProjectAll(id, record, log[from..to - 1]), log[to - 1])
  {
    hide Project;
    LastOfSlice(log, from, to);
  }

  /** A segment that starts within what was offered only adds what lies beyond it. */
  lemma {:induction false} SegmentExtends(id: TaskID, record: TaskRecord, log: seq<TaskEvent>, k: nat, from: nat,
                                          to: nat)
    requires Numbered(log) && k <= |log| && from <= k && from <= to <= |log|
    ensures ProjectAll(id, ProjectAll(id, record, log[..k]), log[from..to]) == ProjectAll(id, record, log[..Max(k, to)])
  {
    if from < to {
      hide ProjectAll;
      hide Project;
      SegmentExtends(id, record, log, k, from, to - 1);
      ProjectLast(id, ProjectAll(id, record, log[..k]), log, from, to);
      if to <= k {
        ReofferingIsHarmless(id, record, log, k, to - 1);
      } else {
        ProjectLast(id, record, log, 0, to);
        assert log[0..to] == log[..to] && log[0..to - 1] == log[..to - 1];
      }
    }
  }

  /** A session offers log[from..to]. */
  datatype Session = Session(from: nat, to: nat)

  function Resumed(id: TaskID, record: TaskRecord, log: seq<TaskEvent>, sessions: seq<Session>): TaskRecord
    requires forall s <- sessions :: s.from <= s.to <= |log|
  {
    if sessions == [] then record
    else
      var last := sessions[|sessions| - 1];
      ProjectAll(id, Resumed(id, record, log, sessions[..|sessions| - 1]), log[last.from..last.to])
  }

  /** Each session starts at a cursor that the record of that moment has reached. */
  ghost predicate FromCursors(id: TaskID, record: TaskRecord, log: seq<TaskEvent>, sessions: seq<Session>)
  {
    && (forall s <- sessions :: s.from <= s.to <= |log|)
    && (sessions != [] ==>
          var n := |sessions| - 1;
          FromCursors(id, record, log, sessions[..n])
            && sessions[n].from <= Resumed(id, record, log, sessions[..n]).lastSequence)
  }

  /** How far into the log any session has offered. */
  function Reached(record: TaskRecord, sessions: seq<Session>): int
  {
    if sessions == [] then record.lastSequence
    else Max(Reached(record, sessions[..|sessions| - 1]), sessions[|sessions| - 1].to)
  }

  lemma {:induction false} SessionsExtend(id: TaskID, record: TaskRecord, log: seq<TaskEvent>, sessions: seq<Session>)
    requires Numbered(log) && 0 <= record.lastSequence <= |log| && FromCursors(id, record, log, sessions)
    ensures record.lastSequence <= Reached(record, sessions) <= |log|
    ensures Resumed(id, record, log, sessions) == ProjectAll(id, record, log[..Reached(record, sessions)])
  {
    if sessions == [] {
      SeenIsIgnored(id, record, log, record.lastSequence);
    } else {
      var n := |sessions| - 1;
      SessionsExtend(id, record, log, sessions[..n]);
      var k := Reached(record, sessions[..n]);
      CursorIsBounded(id, record, log, k);
      assert sessions[n] in sessions;
      SegmentExtends(id, record, log, k, sessions[n].from, sessions[n].to);
    }
  }

  /** If the last session reaches the end of the log, the record is the one a single pass leaves. */
  lemma CursorResumeRefinesOnePass(id: TaskID, record: TaskRecord, log: seq<TaskEvent>, sessions: seq<Session>)
    requires Numbered(log) && 0 <= record.lastSequence <= |log|
    requires sessions != [] && FromCursors(id, record, log, sessions) && sessions[|sessions| - 1].to == |log|
    ensures Resumed(id, record, log, sessions) == ProjectAll(id, record, log)
  {
    SessionsExtend(id, record, log, sessions);
    assert log[..|log|] == log;
  }

  // ---- Sessions that are subscriptions ----

  /** The record's event id is the one its cursor names. */
  predicate CursorNamed(id: TaskID, record: TaskRecord)
  {
    record.lastSequence >= 0
      && record.lastEventID == (if record.lastSequence == 0 then "" else EventID(id, record.lastSequence))
  }

  lemma ProjectKeepsCursorNamed(id: TaskID, record: TaskRecord, e: TaskEvent)
    requires CursorNamed(id, record) && e.sequence >= 1 && e.eventID == EventID(id, e.sequence)
    ensures CursorNamed(id, Project(id, record, e))
  {
    ProjectMoves(id, record, e);
  }

  lemma {:induction false} PassKeepsCursorNamed(id: TaskID, record: TaskRecord, log: seq<TaskEvent>, k: nat)
    requires Dense(id, log) && k <= |log| && CursorNamed(id, record)
    ensures CursorNamed(id, ProjectAll(id, record, log[..k]))
  {
    if k > 0 {
      assert log[..k][..k - 1] == log[..k - 1];
      PassKeepsCursorNamed(id, record, log, k - 1);
      ProjectKeepsCursorNamed(id, ProjectAll(id, record, log[..k - 1]), log[k - 1]);
    }
  }

  /** A terminal event beyond a named cursor leaves the task terminal. */
  lemma TerminalEventSettles(id: TaskID, record: TaskRecord, e: TaskEvent)
    requires CursorNamed(id, record) && e.sequence > record.lastSequence && e.eventID == EventID(id, e.sequence)
    requires IsTerminalEvent(e.state)
    ensures IsTerminal(Project(id, record, e).state)
  {
    if record.lastSequence > 0 && e.eventID == record.lastEventID {
      EventIDInjective(id, e.sequence, record.lastSequence);
    }
    assert EventID(id, e.sequence)[|id|] == '-';
  }

  lemma {:induction false} TerminalIgnores(id: TaskID, record: TaskRecord, events: seq<TaskEvent>)
    requires IsTerminal(record.state)
    ensures ProjectAll(id, record, events) == record
  {
    if events != [] {
      TerminalIgnores(id, record, events[..|events| - 1]);
      BehindIsIgnored(id, record, events[|events| - 1]);
    }
  }

  lemma {:induction false} ProjectAllAppend(id: TaskID, record: TaskRecord, first: seq<TaskEvent>,
                                            second: seq<TaskEvent>)
    ensures ProjectAll(id, record, first + second) == ProjectAll(id, ProjectAll(id, record, first), second)
  {
    if second == [] {
      assert first + second == first;
    } else {
      var n := |second| - 1;
      assert (first + second)[..|first| + n] == first + second[..n];
      ProjectAllAppend(id, record, first, second[..n]);
    }
  }

  /** The subscription that follows: from the record's own cursor, to the first terminal event or the end. */
  function LastStretch(id: TaskID, record: TaskRecord, log: seq<TaskEvent>, sessions: seq<Session>): seq<TaskEvent>
    requires forall s <- sessions :: s.from <= s.to <= |log|
  {
    UpToTerminal(EventsAfter(log, Resumed(id, record, log, sessions).lastSequence))
  }

  lemma {:induction false} UpToTerminalShape(events: seq<TaskEvent>)
    ensures var cut := UpToTerminal(events);
      cut <= events && (cut == events || (cut != [] && IsTerminalEvent(cut[|cut| - 1].state)))
  {
    if events != [] {
      UpToTerminalShape(events[1..]);
    }
  }

  /** Over a stretch that starts at its cursor, the cursor is named and does not pass the events offered. */
  lemma {:induction false} StretchCursor(id: TaskID, mid: TaskRecord, log: seq<TaskEvent>, n: nat)
    requires Dense(id, log) && CursorNamed(id, mid) && mid.lastSequence + n <= |log|
    ensures var c := mid.lastSequence; var last := ProjectAll(id, mid, log[c..c + n]);
      last.lastSequence <= c + n && CursorNamed(id, last)
  {
    assert mid.lastSequence >= 0;
    hide CursorNamed;
    hide Project;
    hide EventID;
    var c := mid.lastSequence;
    if n > 0 {
      hide ProjectAll;
      StretchCursor(id, mid, log, n - 1);
      ProjectLast(id, mid, log, c, c + n);
      var last := ProjectAll(id, mid, log[c..c + n - 1]);
      ProjectMoves(id, last, log[c + n - 1]);
      ProjectKeepsCursorNamed(id, last, log[c + n - 1]);
    }
  }

  /** A stretch from a named cursor whose last event is terminal leaves the task terminal. */
  lemma StretchSettles(id: TaskID, mid: TaskRecord, log: seq<TaskEvent>, n: nat)
    requires Dense(id, log) && CursorNamed(id, mid) && mid.lastSequence + n < |log|
    requires IsTerminalEvent(log[mid.lastSequence + n].state)
    ensures var c := mid.lastSequence; IsTerminal(ProjectAll(id, mid, log[c..c + n + 1]).state)
  {
    assert mid.lastSequence >= 0;
    hide CursorNamed;
    hide Project;
    hide EventID;
    hide IsTerminalEvent;
    hide ProjectAll;
    var c := mid.lastSequence;
    StretchCursor(id, mid, log, n);
    ProjectLast(id, mid, log, c, c + n + 1);
    TerminalEventSettles(id, ProjectAll(id, mid, log[c..c + n]), log[c + n]);
  }

  lemma CutIsSlice(log: seq<TaskEvent>, from: nat, cut: seq<TaskEvent>)
    requires from <= |log| && cut <= log[from..]
    ensures cut == log[from..from + |cut|] && log[from..] == cut + log[from + |cut|..]
  {
  }

  /** Nothing is lost by stopping at the first terminal event beyond the cursor. */
  lemma StretchCompletes(id: TaskID, mid: TaskRecord, log: seq<TaskEvent>)
    requires Dense(id, log) && CursorNamed(id, mid) && mid.lastSequence <= |log|
    ensures ProjectAll(id, mid, UpToTerminal(log[mid.lastSequence..])) == ProjectAll(id, mid, log[mid.lastSequence..])
  {
    var c := mid.lastSequence;
    assert c >= 0;
    hide Dense;
    hide UpToTerminal;
    hide ProjectAll;
    hide Project;
    hide CursorNamed;
    hide EventID;
    hide IsTerminalEvent;
    var all := log[c..];
    var cut := UpToTerminal(all);
    UpToTerminalShape(all);
    if cut != all {
      CutIsSlice(log, c, cut);
      StretchSettles(id, mid, log, |cut| - 1);
      var rest := log[c + |cut|..];
      ProjectAllAppend(id, mid, cut, rest);
      TerminalIgnores(id, ProjectAll(id, mid, cut), rest);
    }
  }

  /**
   After any broken-off sessions over a numbered log, one more stretch from the record's cursor, up to the first
   terminal event or the end of the log, leaves the record of a single pass over the whole log.
   */
  lemma SubscriptionCompletesPass(id: TaskID, record: TaskRecord, log: seq<TaskEvent>, sessions: seq<Session>)
    requires Dense(id, log) && CursorNamed(id, record) && record.lastSequence <= |log|
    requires FromCursors(id, record, log, sessions)
    ensures ProjectAll(id, Resumed(id, record, log, sessions), LastStretch(id, record, log, sessions))
            == ProjectAll(id, record, log)
  {
    hide Project;
    hide EventID;
    SessionsExtend(id, record, log, sessions);
    var k := Reached(record, sessions);
    var mid := Resumed(id, record, log, sessions);
    CursorIsBounded(id, record, log, k);
    PassKeepsCursorNamed(id, record, log, k);
    assert mid.lastSequence >= 0;
    hide CursorNamed;
    hide ProjectAll;
    hide Resumed;
    hide Reached;
    hide UpToTerminal;
    assert EventsAfter(log, mid.lastSequence) == log[mid.lastSequence..];
    StretchCompletes(id, mid, log);
    SegmentExtends(id, record, log, k, mid.lastSequence, |log|);
    assert log[mid.lastSequence..|log|] == log[mid.lastSequence..] && log[..|log|] == log;
  }
}
