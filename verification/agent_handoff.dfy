/**
 When the handoff from replay to live events is exact.

 A subscriber is sent the whole of what its cursor has not seen if and only if every push it was offered
 was in turn: an event it already had, or the next one with room for it.
 */
module AgentHandoff {
  import opened Sequences
  import opened TaskEvents
  import opened AgentService
  import opened AgentSubscription

  /** The cursor after the receive loop has worked through the channel. */
  function Frontier(last: int, buffer: seq<TaskEvent>): int
    decreases |buffer|
  {
    if buffer == [] then last
    else Frontier(if Skips(last, buffer[0]) then last else Advance(last, buffer[0]), buffer[1..])
  }

  lemma {:induction false} AcceptedAppend(last: int, buffer: seq<TaskEvent>, e: TaskEvent)
    ensures Accepted(last, buffer + [e])
            == Accepted(last, buffer) + (if Skips(Frontier(last, buffer), e) then [] else [e])
    ensures Frontier(last, buffer + [e]) ==
      if Skips(Frontier(last, buffer), e) then Frontier(last, buffer) else Advance(Frontier(last, buffer), e)
    decreases |buffer|
  {
    if buffer == [] {
      assert [] + [e] == [e];
    } else {
      assert (buffer + [e])[1..] == buffer[1..] + [e];
      AcceptedAppend(if Skips(last, buffer[0]) then last else Advance(last, buffer[0]), buffer[1..], e);
    }
  }

  /** Sequences that rise from beyond the cursor. */
  predicate Climbing(after: int, events: seq<TaskEvent>)
  {
    && (forall i :: 0 <= i < |events| ==> events[i].sequence > 0 && events[i].sequence > after)
    && (forall i, j :: 0 <= i < j < |events| ==> events[i].sequence < events[j].sequence)
  }

  /** The receive loop accepts all of a replay. */
  lemma {:induction false} ReplayCatchesUp(after: int, replay: seq<TaskEvent>)
    requires Climbing(after, replay)
    ensures Accepted(after, replay) == replay
    ensures Frontier(after, replay) == if replay == [] then after else replay[|replay| - 1].sequence
  {
    if replay != [] {
      var n := |replay| - 1;
      var before := replay[..n];
      assert replay == before + [replay[n]];
      ReplayCatchesUp(after, before);
      AcceptedAppend(after, before, replay[n]);
    }
  }

  lemma EventsAfterAppend(log: seq<TaskEvent>, e: TaskEvent, after: int)
    ensures EventsAfter(log + [e], after) == EventsAfter(log, after) + (if after <= |log| then [e] else [])
  {
  }

  lemma {:induction false} UpToTerminalGrows(events: seq<TaskEvent>, more: seq<TaskEvent>)
    ensures UpToTerminal(events) <= UpToTerminal(events + more)
    ensures UpToTerminal(events) != [] && IsTerminalEvent(UpToTerminal(events)[|UpToTerminal(events)| - 1].state)
            ==> UpToTerminal(events + more) == UpToTerminal(events)
  {
    if events != [] {
      assert (events + more)[1..] == events[1..] + more;
      UpToTerminalGrows(events[1..], more);
    }
  }

  lemma {:induction false} UpToTerminalEnds(events: seq<TaskEvent>, quiet: seq<TaskEvent>)
    requires quiet <= events && forall e <- quiet :: !IsTerminalEvent(e.state)
    ensures quiet <= UpToTerminal(events)
    ensures |quiet| < |events| && IsTerminalEvent(events[|quiet|].state) ==>
      UpToTerminal(events) == events[..|quiet| + 1]
    ensures quiet == events ==> UpToTerminal(events) == events
  {
    if quiet != [] {
      UpToTerminalEnds(events[1..], quiet[1..]);
    }
  }

  lemma EventsAfterPrefix(log: seq<TaskEvent>, hi: nat, after: int)
    requires hi <= |log|
    ensures EventsAfter(log[..hi], after) <= EventsAfter(log, after)
  {
  }

  lemma ReplayIsClimbing(taskID: string, log: seq<TaskEvent>, cursor: int)
    requires Dense(taskID, log)
    ensures var replay := EventsAfter(log, cursor);
      Climbing(cursor, replay) && (replay != [] ==> replay[|replay| - 1].sequence == |log|)
  {
  }

  lemma {:induction false} UpToTerminalIsPrefix(events: seq<TaskEvent>)
    ensures UpToTerminal(events) <= events
  {
    if events != [] {
      UpToTerminalIsPrefix(events[1..]);
    }
  }

  // ---- Pushes in turn ----

  /** The sequence a subscriber is waiting for. */
  function Next(sub: Subscriber): int
  {
    var f := Frontier(sub.last, sub.buffer);
    if f < 0 then 1 else f + 1
  }

  /** The subscriber has the event already, or it is the next one and there is room for it. */
  predicate InTurn(sub: Subscriber, e: TaskEvent)
  {
    e.sequence <= Frontier(sub.last, sub.buffer) || (e.sequence == Next(sub) && |sub.buffer| < CHANNEL_CAPACITY)
  }

  predicate PushesInTurn(s: State, a: Action, k: nat)
  {
    a.Push? && a.publisher < |s.unpushed| && k < |s.subscribers| && s.subscribers[k].status.Open? ==>
      InTurn(s.subscribers[k], s.unpushed[a.publisher])
  }

  /** Every push that subscriber k was offered while it was open was in turn. */
  ghost predicate AlwaysInTurn(taskID: string, actions: seq<Action>, k: nat)
  {
    actions != [] ==>
      var n := |actions| - 1;
      AlwaysInTurn(taskID, actions[..n], k) && PushesInTurn(Run(Initial(taskID), actions[..n]), actions[n], k)
  }

  /** How far into the log a cursor reaches. */
  function Reach(log: seq<TaskEvent>, cursor: int): nat
  {
    if cursor < 0 then 0 else if cursor > |log| then |log| else cursor
  }

  /** Beyond the frontier, every event of the log is still to be pushed. */
  ghost predicate Pending(log: seq<TaskEvent>, unpushed: seq<TaskEvent>, frontier: int)
  {
    forall e <- log :: frontier < e.sequence ==> e in unpushed
  }

  /** The loop will have sent exactly what the log holds beyond the cursor, up to the frontier. */
  ghost predicate CaughtUp(log: seq<TaskEvent>, sub: Subscriber)
  {
    var f := Frontier(sub.last, sub.buffer);
    && sub.sent + Accepted(sub.last, sub.buffer) == EventsAfter(log[..Reach(log, f)], sub.after)
    && sub.after <= f && (sub.after < f ==> 0 < f <= |log|)
    && (forall e <- sub.sent :: !IsTerminalEvent(e.state))
  }

  ghost predicate InStep(s: State, sub: Subscriber)
  {
    match sub.status
    case Open => CaughtUp(s.log, sub) && Pending(s.log, s.unpushed, Frontier(sub.last, sub.buffer))
    case Ended =>
      && sub.sent == UpToTerminal(EventsAfter(s.log, sub.after))
      && sub.sent != [] && IsTerminalEvent(sub.sent[|sub.sent| - 1].state)
    case Left => sub.sent <= UpToTerminal(EventsAfter(s.log, sub.after))
  }

  lemma SentIsPrefix(log: seq<TaskEvent>, sub: Subscriber)
    requires CaughtUp(log, sub)
    ensures sub.sent <= EventsAfter(log, sub.after) && sub.sent <= UpToTerminal(EventsAfter(log, sub.after))
  {
    EventsAfterPrefix(log, Reach(log, Frontier(sub.last, sub.buffer)), sub.after);
    hide Frontier;
    hide Accepted;
    hide EventsAfter;
    hide UpToTerminal;
    hide Reach;
    UpToTerminalEnds(EventsAfter(log, sub.after), sub.sent);
  }

  /** What one turn of the loop sends was accepted already. */
  lemma ReceiveMovesOn(sub: Subscriber)
    requires sub.status.Open? && sub.buffer != []
    ensures var next := Received(sub);
      && next.sent + Accepted(next.last, next.buffer) == sub.sent + Accepted(sub.last, sub.buffer)
      && Frontier(next.last, next.buffer) == Frontier(sub.last, sub.buffer)
  {
    var e, rest := sub.buffer[0], sub.buffer[1..];
    if !Skips(sub.last, e) {
      var accepted := Accepted(Advance(sub.last, e), rest);
      assert sub.sent + ([e] + accepted) == sub.sent + [e] + accepted;
    }
  }

  /** A turn that sends a terminal event has sent all there is to send. */
  lemma EndIsExact(log: seq<TaskEvent>, sub: Subscriber)
    requires CaughtUp(log, sub) && sub.status.Open? && sub.buffer != []
    requires Received(sub).status.Ended?
    ensures var next := Received(sub);
      && next.sent == UpToTerminal(EventsAfter(log, sub.after))
      && next.sent != [] && IsTerminalEvent(next.sent[|next.sent| - 1].state)
  {
    var next, e := Received(sub), sub.buffer[0];
    var hi := Reach(log, Frontier(sub.last, sub.buffer));
    var seen, all := EventsAfter(log[..hi], sub.after), EventsAfter(log, sub.after);
    ReceiveMovesOn(sub);
    EventsAfterPrefix(log, hi, sub.after);
    assert next.sent == sub.sent + [e] && next.sent <= seen <= all;
    hide Frontier;
    hide Accepted;
    hide EventsAfter;
    hide Reach;
    UpToTerminalEnds(all, sub.sent);
    assert all[|sub.sent|] == next.sent[|sub.sent|] == e;
    assert all[..|sub.sent| + 1] == next.sent;
  }

  lemma ReceiveStaysInStep(s: State, sub: Subscriber)
    requires InStep(s, sub)
    ensures InStep(s, Received(sub))
  {
    if sub.status.Open? && sub.buffer != [] {
      ReceiveMovesOn(sub);
      if Received(sub).status.Ended? {
        EndIsExact(s.log, sub);
      }
      hide Frontier;
      hide Accepted;
      hide EventsAfter;
      hide UpToTerminal;
      hide Reach;
    }
  }

  lemma AppendStaysInStep(s: State, draft: TaskEvent, sub: Subscriber)
    requires InStep(s, sub) && SoundSubscriber(s.log, sub)
    ensures InStep(Step(s, Append(draft)), sub)
  {
    var e := Stamp(s.taskID, s.log, draft);
    var after := Step(s, Append(draft));
    if sub.status.Open? {
      AppendKeepsCaughtUp(s.log, e, sub);
      hide CaughtUp;
      hide Frontier;
    } else {
      EventsAfterAppend(s.log, e, sub.after);
      UpToTerminalGrows(EventsAfter(s.log, sub.after), if sub.after <= |s.log| then [e] else []);
    }
  }

  /** An append reaches past every frontier that stands in the log; a cursor ahead of the log stays where it is. */
  lemma AppendKeepsCaughtUp(log: seq<TaskEvent>, e: TaskEvent, sub: Subscriber)
    requires CaughtUp(log, sub)
    ensures CaughtUp(log + [e], sub)
  {
    var f := Frontier(sub.last, sub.buffer);
    if f <= |log| {
      assert (log + [e])[..Reach(log, f)] == log[..Reach(log, f)];
    } else {
      assert EventsAfter(log[..Reach(log, f)], sub.after) == [];
      assert EventsAfter((log + [e])[..Reach(log + [e], f)], sub.after) == [];
    }
  }

  lemma SubscribeIsInStep(s: State, cursor: int)
    requires Dense(s.taskID, s.log)
    ensures InStep(s, Subscriber(cursor, EventsAfter(s.log, cursor), cursor, [], Open))
  {
    var replay := EventsAfter(s.log, cursor);
    ReplayIsClimbing(s.taskID, s.log, cursor);
    ReplayCatchesUp(cursor, replay);
    ReplayIsWhole(s.taskID, s.log, cursor);
    NothingPending(s.taskID, s.log, s.unpushed, Frontier(cursor, replay));
    SubscribeIsCaughtUp(s.taskID, s.log, cursor);
    hide CaughtUp;
    hide EventsAfter;
    hide Frontier;
    hide Pending;
    hide Dense;
  }

  lemma SubscribeIsCaughtUp(taskID: string, log: seq<TaskEvent>, cursor: int)
    requires Dense(taskID, log)
    ensures CaughtUp(log, Subscriber(cursor, EventsAfter(log, cursor), cursor, [], Open))
  {
    var replay := EventsAfter(log, cursor);
    ReplayIsClimbing(taskID, log, cursor);
    ReplayCatchesUp(cursor, replay);
    ReplayIsWhole(taskID, log, cursor);
    assert [] + replay == replay;
    hide EventsAfter;
    hide Accepted;
    hide Frontier;
    hide Climbing;
    hide Reach;
    hide Dense;
  }

  lemma NothingPending(taskID: string, log: seq<TaskEvent>, unpushed: seq<TaskEvent>, frontier: int)
    requires Dense(taskID, log) && (log != [] ==> |log| <= frontier)
    ensures Pending(log, unpushed, frontier)
  {
    assert forall e <- log :: e.sequence <= |log|;
  }

  /** A replay holds all of the log beyond the cursor, and ends with its last event. */
  lemma ReplayIsWhole(taskID: string, log: seq<TaskEvent>, cursor: int)
    requires Dense(taskID, log)
    ensures var replay := EventsAfter(log, cursor);
            var f := if replay == [] then cursor else replay[|replay| - 1].sequence;
            && EventsAfter(log[..Reach(log, f)], cursor) == replay
            && cursor <= f && (cursor < f ==> 0 < f <= |log|) && |log| <= Reach(log, f)
            && (log != [] ==> |log| <= f)
  {
    ReplayIsClimbing(taskID, log, cursor);
    assert log[..|log|] == log;
  }

  /** A push in turn moves the frontier over its event, or not at all. */
  lemma PushKeepsCaughtUp(taskID: string, log: seq<TaskEvent>, sub: Subscriber, e: TaskEvent)
    requires Dense(taskID, log) && FromLog(log, e) && CaughtUp(log, sub) && InTurn(sub, e)
    ensures var next := sub.(buffer := Offer(sub.buffer, e));
      && CaughtUp(log, next)
      && Frontier(next.last, next.buffer) >= Frontier(sub.last, sub.buffer)
      && Frontier(next.last, next.buffer) >= e.sequence
  {
    var f, accepted := Frontier(sub.last, sub.buffer), Accepted(sub.last, sub.buffer);
    AcceptedAppend(sub.last, sub.buffer, e);
    if e.sequence <= f {
      assert accepted + [] == accepted;
      hide Frontier;
      hide Accepted;
      hide EventsAfter;
    } else {
      NextEventExtends(log, f, sub.after, e);
      hide Frontier;
      hide Accepted;
      hide EventsAfter;
      assert sub.sent + (accepted + [e]) == sub.sent + accepted + [e];
    }
  }

  lemma NextEventExtends(log: seq<TaskEvent>, f: int, after: int, e: TaskEvent)
    requires FromLog(log, e) && after <= f && e.sequence == (if f < 0 then 1 else f + 1)
    ensures EventsAfter(log[..Reach(log, e.sequence)], after) == EventsAfter(log[..Reach(log, f)], after) + [e]
  {
    var hi := Reach(log, f);
    assert log[..hi + 1] == log[..hi] + [e];
    EventsAfterAppend(log[..hi], e, after);
  }

  lemma PushStaysInStep(s: State, i: nat, sub: Subscriber)
    requires Sound(s) && i < |s.unpushed| && InStep(s, sub)
    requires sub.status.Open? ==> InTurn(sub, s.unpushed[i])
    ensures InStep(Step(s, Push(i)), Offered(sub, s.unpushed[i]))
  {
    var e, after := s.unpushed[i], Step(s, Push(i));
    assert e in s.unpushed;
    if sub.status.Open? {
      PushKeepsCaughtUp(s.taskID, s.log, sub, e);
      hide CaughtUp;
      hide Frontier;
      hide Dense;
      hide SoundSubscriber;
      var next := Offered(sub, e);
      forall x <- s.log | Frontier(next.last, next.buffer) < x.sequence ensures x in after.unpushed {
        StillUnpushed(s.unpushed, i, x);
      }
    }
  }

  lemma StillUnpushed(unpushed: seq<TaskEvent>, i: nat, e: TaskEvent)
    requires i < |unpushed| && e in unpushed && e != unpushed[i]
    ensures e in unpushed[..i] + unpushed[i + 1..]
  {
    var j :| 0 <= j < |unpushed| && unpushed[j] == e;
    if j < i {
      assert unpushed[..i][j] == e;
    } else {
      assert unpushed[i + 1..][j - i - 1] == e;
    }
  }

  lemma LeaveStaysInStep(s: State, sub: Subscriber)
    requires InStep(s, sub) && sub.status.Open?
    ensures InStep(s, sub.(status := Left))
  {
    SentIsPrefix(s.log, sub);
  }

  /** What a step does to subscriber k on its own. */
  lemma StepStaysInStep(s: State, a: Action, k: nat)
    requires Sound(s) && k < |Step(s, a).subscribers|
    requires k < |s.subscribers| ==> InStep(s, s.subscribers[k]) && PushesInTurn(s, a, k)
    ensures InStep(Step(s, a), Step(s, a).subscribers[k])
  {
    assert forall j :: 0 <= j < |s.subscribers| ==> SoundSubscriber(s.log, s.subscribers[j]);
    assert Dense(s.taskID, s.log);
    hide InStep;
    hide SoundSubscriber;
    hide Dense;
    hide InTurn;
    match a {
      case Append(draft) => AppendStaysInStep(s, draft, s.subscribers[k]);
      case Push(i) =>
        if i < |s.unpushed| {
          PushStaysInStep(s, i, s.subscribers[k]);
        }
      case Subscribe(cursor) =>
        if k == |s.subscribers| {
          SubscribeIsInStep(s, cursor);
          InStepIgnoresSubscribers(s, Step(s, a), Step(s, a).subscribers[k]);
        } else {
          InStepIgnoresSubscribers(s, Step(s, a), s.subscribers[k]);
        }
      case Receive(j) =>
        if j < |s.subscribers| {
          ReceiveStaysInStep(s, s.subscribers[k]);
          InStepIgnoresSubscribers(s, Step(s, a), Step(s, a).subscribers[k]);
        }
      case Leave(j) =>
        if j < |s.subscribers| && s.subscribers[j].status.Open? {
          if j == k {
            LeaveStaysInStep(s, s.subscribers[k]);
          }
          InStepIgnoresSubscribers(s, Step(s, a), Step(s, a).subscribers[k]);
        }
    }
  }

  lemma InStepIgnoresSubscribers(s: State, t: State, sub: Subscriber)
    requires InStep(s, sub) && t == s.(subscribers := t.subscribers)
    ensures InStep(t, sub)
  {
  }

  lemma {:induction false} InTurnIsInStep(taskID: string, actions: seq<Action>, k: nat)
    requires AlwaysInTurn(taskID, actions, k) && k < |Run(Initial(taskID), actions).subscribers|
    ensures InStep(Run(Initial(taskID), actions), Run(Initial(taskID), actions).subscribers[k])
  {
    if actions != [] {
      var n := |actions| - 1;
      var s := Run(Initial(taskID), actions[..n]);
      SentIsIncreasing(taskID, actions[..n]);
      if k < |s.subscribers| {
        InTurnIsInStep(taskID, actions[..n], k);
      }
      hide Step;
      hide InStep;
      hide Sound;
      hide PushesInTurn;
      StepStaysInStep(s, actions[n], k);
    }
  }

  /**
   A subscriber whose pushes were in turn has been sent a beginning of the log beyond its cursor, up to the
   first terminal event; all of that once its stream ended, and also once it is drained with nothing to push.
   */
  lemma HandoffWhenInTurn(taskID: string, actions: seq<Action>, k: nat)
    requires AlwaysInTurn(taskID, actions, k) && k < |Run(Initial(taskID), actions).subscribers|
    ensures var s := Run(Initial(taskID), actions); var sub := s.subscribers[k];
      && sub.sent <= UpToTerminal(EventsAfter(s.log, sub.after))
      && (sub.status.Ended? || Drained(s, sub) ==> sub.sent == UpToTerminal(EventsAfter(s.log, sub.after)))
  {
    var s := Run(Initial(taskID), actions);
    var sub := s.subscribers[k];
    InTurnIsInStep(taskID, actions, k);
    SentIsIncreasing(taskID, actions);
    hide Run;
    hide AlwaysInTurn;
    if sub.status.Open? {
      SentIsPrefix(s.log, sub);
      if Drained(s, sub) {
        DrainedIsWhole(s, sub);
      }
    }
  }

  /** An open subscriber whose channel is empty, with nothing left to push. */
  predicate Drained(s: State, sub: Subscriber)
  {
    sub.status.Open? && sub.buffer == [] && s.unpushed == []
  }

  lemma DrainedIsWhole(s: State, sub: Subscriber)
    requires Dense(s.taskID, s.log) && InStep(s, sub) && Drained(s, sub)
    ensures sub.sent == UpToTerminal(EventsAfter(s.log, sub.after))
  {
    if s.log != [] {
      var e := s.log[|s.log| - 1];
      assert e.sequence == |s.log|;
      assert e in s.log && Frontier(sub.last, sub.buffer) >= e.sequence;
    }
    assert s.log[..|s.log|] == s.log && sub.sent + [] == sub.sent;
    UpToTerminalEnds(EventsAfter(s.log, sub.after), sub.sent);
  }

  // ---- A push out of turn loses an event for good ----

  lemma {:induction false} AcceptedIsBelow(last: int, buffer: seq<TaskEvent>)
    ensures last <= Frontier(last, buffer)
    ensures forall e <- Accepted(last, buffer) :: e in buffer && e.sequence <= Frontier(last, buffer)
    decreases |buffer|
  {
    if buffer != [] {
      AcceptedIsBelow(if Skips(last, buffer[0]) then last else Advance(last, buffer[0]), buffer[1..]);
    }
  }

  /** Event m of the log was not sent, waits in no channel, and can no longer be accepted. */
  ghost predicate Lost(s: State, sub: Subscriber, m: nat)
  {
    && 1 <= m <= |s.log| && sub.after < m
    && s.log[m - 1] !in sub.sent + Accepted(sub.last, sub.buffer)
    && (m <= Frontier(sub.last, sub.buffer) || s.log[m - 1] !in s.unpushed)
  }

  lemma OutOfTurnLoses(s: State, i: nat, sub: Subscriber) returns (m: nat)
    requires Sound(s) && i < |s.unpushed| && sub.status.Open? && SoundSubscriber(s.log, sub)
    requires sub.after <= Frontier(sub.last, sub.buffer)
    requires !InTurn(sub, s.unpushed[i])
    ensures Lost(Step(s, Push(i)), Offered(sub, s.unpushed[i]), m)
  {
    var e, f := s.unpushed[i], Frontier(sub.last, sub.buffer);
    assert e in s.unpushed && FromLog(s.log, e);
    AcceptedIsBelow(sub.last, sub.buffer);
    AcceptedAppend(sub.last, sub.buffer, e);
    assert forall x <- sub.sent :: x.sequence <= sub.last;
    if |sub.buffer| >= CHANNEL_CAPACITY {
      m := e.sequence;
      hide Frontier;
      hide Accepted;
      hide Dense;
    } else {
      m := Next(sub);
      hide Frontier;
      hide Accepted;
    }
  }

  lemma AppendKeepsLost(s: State, draft: TaskEvent, sub: Subscriber, m: nat)
    requires Dense(s.taskID, s.log) && Lost(s, sub, m)
    ensures Lost(Step(s, Append(draft)), sub, m)
  {
    hide Frontier;
    hide Accepted;
  }

  lemma PushKeepsLost(s: State, i: nat, sub: Subscriber, m: nat)
    requires Sound(s) && i < |s.unpushed| && sub.status.Open? && Lost(s, sub, m)
    ensures Lost(Step(s, Push(i)), Offered(sub, s.unpushed[i]), m)
  {
    var e := s.unpushed[i];
    assert e in s.unpushed;
    AcceptedAppend(sub.last, sub.buffer, e);
    hide Frontier;
    hide Accepted;
    hide SoundSubscriber;
  }

  lemma ReceiveKeepsLost(s: State, sub: Subscriber, m: nat)
    requires Lost(s, sub, m)
    ensures Lost(s, Received(sub), m)
  {
    if sub.status.Open? && sub.buffer != [] {
      ReceiveMovesOn(sub);
      hide Frontier;
      hide Accepted;
    }
  }

  ghost predicate HasLost(s: State, sub: Subscriber)
  {
    exists m: nat :: Lost(s, sub, m)
  }

  lemma StepKeepsLost(s: State, a: Action, k: nat)
    requires Sound(s) && k < |s.subscribers| && HasLost(s, s.subscribers[k])
    requires Step(s, a).subscribers[k].status.Open?
    ensures HasLost(Step(s, a), Step(s, a).subscribers[k])
  {
    var sub, after := s.subscribers[k], Step(s, a);
    var m: nat :| Lost(s, sub, m);
    assert Dense(s.taskID, s.log);
    match a {
      case Append(draft) => AppendKeepsLost(s, draft, sub, m);
      case Push(i) =>
        if i < |s.unpushed| {
          PushKeepsLost(s, i, sub, m);
        }
      case Receive(j) => ReceiveKeepsLost(s, sub, m);
      case _ =>
    }
    hide Step;
    assert Lost(after, after.subscribers[k], m);
  }

  lemma FrontierIsAhead(s: State, sub: Subscriber)
    requires SoundSubscriber(s.log, sub)
    ensures sub.after <= Frontier(sub.last, sub.buffer)
  {
    AcceptedIsBelow(sub.last, sub.buffer);
    assert sub.sent != [] ==> sub.sent[|sub.sent| - 1] in sub.sent;
  }

  /** Subscribers keep their places, and a stream that is over stays over. */
  lemma SubscribersStay(s: State, a: Action, k: nat)
    requires k < |s.subscribers|
    ensures k < |Step(s, a).subscribers|
    ensures Step(s, a).subscribers[k].status.Open? ==> s.subscribers[k].status.Open?
  {
  }

  lemma {:induction false} OutOfTurnIsLost(taskID: string, actions: seq<Action>, k: nat)
    requires !AlwaysInTurn(taskID, actions, k)
    ensures var s := Run(Initial(taskID), actions);
      k < |s.subscribers| && (s.subscribers[k].status.Open? ==> HasLost(s, s.subscribers[k]))
  {
    var n := |actions| - 1;
    var s, a := Run(Initial(taskID), actions[..n]), actions[n];
    SentIsIncreasing(taskID, actions[..n]);
    if AlwaysInTurn(taskID, actions[..n], k) {
      assert !PushesInTurn(s, a, k);
      var sub := s.subscribers[k];
      assert SoundSubscriber(s.log, sub);
      FrontierIsAhead(s, sub);
      var m := OutOfTurnLoses(s, a.publisher, sub);
      assert Step(s, a).subscribers[k] == Offered(sub, s.unpushed[a.publisher]);
      hide Step;
      assert Lost(Run(Initial(taskID), actions), Run(Initial(taskID), actions).subscribers[k], m);
    } else {
      OutOfTurnIsLost(taskID, actions[..n], k);
      SubscribersStay(s, a, k);
      hide Step;
      hide Sound;
      if Step(s, a).subscribers[k].status.Open? {
        StepKeepsLost(s, a, k);
      }
    }
  }

  lemma LostIsMissing(s: State, sub: Subscriber)
    requires HasLost(s, sub) && sub.status.Open? && SoundSubscriber(s.log, sub) && sub.buffer == []
    ensures sub.sent != UpToTerminal(EventsAfter(s.log, sub.after))
  {
    var m: nat :| Lost(s, sub, m);
    var all := EventsAfter(s.log, sub.after);
    assert all[if sub.after <= 0 then m - 1 else m - 1 - sub.after] == s.log[m - 1];
    assert sub.sent + [] == sub.sent;
    if sub.sent == UpToTerminal(all) {
      QuietIsWhole(all);
    }
  }

  lemma {:induction false} QuietIsWhole(events: seq<TaskEvent>)
    requires forall e <- UpToTerminal(events) :: !IsTerminalEvent(e.state)
    ensures UpToTerminal(events) == events
  {
    if events != [] {
      assert events[0] in UpToTerminal(events);
      assert UpToTerminal(events) == [events[0]] + UpToTerminal(events[1..]);
      QuietIsWhole(events[1..]);
    }
  }

  /**
   For any publishers and any drops: a drained subscriber was sent all that its cursor had not seen, up to
   the first terminal event, if and only if every push it was offered was in turn.
   */
  lemma HandoffIsExactIff(taskID: string, actions: seq<Action>, k: nat)
    ensures var s := Run(Initial(taskID), actions);
      k < |s.subscribers| && Drained(s, s.subscribers[k]) ==>
        (s.subscribers[k].sent == UpToTerminal(EventsAfter(s.log, s.subscribers[k].after))
         <==> AlwaysInTurn(taskID, actions, k))
  {
    var s := Run(Initial(taskID), actions);
    if k < |s.subscribers| && Drained(s, s.subscribers[k]) {
      if AlwaysInTurn(taskID, actions, k) {
        HandoffWhenInTurn(taskID, actions, k);
      } else {
        OutOfTurnIsLost(taskID, actions, k);
        SentIsIncreasing(taskID, actions);
        hide Run;
        assert SoundSubscriber(s.log, s.subscribers[k]);
        LostIsMissing(s, s.subscribers[k]);
      }
    }
  }

  // ---- One publisher, nothing dropped ----

  /** An append follows the push of its predecessor, and a push finds room in every open channel. */
  predicate Orderly(s: State, a: Action)
  {
    match a
    case Append(_) => s.unpushed == []
    case Push(i) => i < |s.unpushed| ==> forall sub <- s.subscribers ::
      sub.status.Open? ==> |sub.buffer| < CHANNEL_CAPACITY
    case _ => true
  }

  ghost predicate AlwaysOrderly(taskID: string, actions: seq<Action>)
  {
    actions != [] ==>
      var n := |actions| - 1;
      AlwaysOrderly(taskID, actions[..n]) && Orderly(Run(Initial(taskID), actions[..n]), actions[n])
  }

  /** At most the last event of the log is still to be pushed. */
  ghost predicate OneUnpushed(s: State)
  {
    s.unpushed == [] || (s.log != [] && s.unpushed == [s.log[|s.log| - 1]])
  }

  lemma {:induction false} OrderlyHasOneUnpushed(taskID: string, actions: seq<Action>)
    requires AlwaysOrderly(taskID, actions)
    ensures OneUnpushed(Run(Initial(taskID), actions))
  {
    if actions != [] {
      var n := |actions| - 1;
      OrderlyHasOneUnpushed(taskID, actions[..n]);
      StepHasOneUnpushed(Run(Initial(taskID), actions[..n]), actions[n]);
    }
  }

  lemma StepHasOneUnpushed(s: State, a: Action)
    requires OneUnpushed(s) && Orderly(s, a)
    ensures OneUnpushed(Step(s, a))
  {
    if a.Append? {
      assert Step(s, a).unpushed == [Stamp(s.taskID, s.log, a.draft)];
    } else if a.Push? && a.publisher < |s.unpushed| {
      assert Step(s, a).unpushed == [];
    } else {
      assert Step(s, a).unpushed == s.unpushed && Step(s, a).log == s.log;
    }
  }

  lemma LastIsInTurn(s: State, sub: Subscriber)
    requires Dense(s.taskID, s.log) && s.log != [] && s.unpushed == [s.log[|s.log| - 1]]
    requires sub.status.Open? && InStep(s, sub) && |sub.buffer| < CHANNEL_CAPACITY
    ensures InTurn(sub, s.log[|s.log| - 1])
  {
    var n, f := |s.log|, Frontier(sub.last, sub.buffer);
    hide Frontier;
    hide CaughtUp;
    if n > 1 {
      var e := s.log[n - 2];
      assert e in s.log && e.sequence == n - 1 && s.log[n - 1].sequence == n;
      assert e !in s.unpushed;
    }
  }

  /** One publisher whose pushes find room is in turn for every subscriber. */
  lemma {:induction false} OrderlyIsInTurn(taskID: string, actions: seq<Action>, k: nat)
    requires AlwaysOrderly(taskID, actions)
    ensures AlwaysInTurn(taskID, actions, k)
  {
    if actions != [] {
      var n := |actions| - 1;
      var s, a := Run(Initial(taskID), actions[..n]), actions[n];
      OrderlyIsInTurn(taskID, actions[..n], k);
      OrderlyHasOneUnpushed(taskID, actions[..n]);
      SentIsIncreasing(taskID, actions[..n]);
      if a.Push? && a.publisher < |s.unpushed| && k < |s.subscribers| && s.subscribers[k].status.Open? {
        InTurnIsInStep(taskID, actions[..n], k);
        assert s.subscribers[k] in s.subscribers;
        hide InStep;
        hide InTurn;
        hide Step;
        LastIsInTurn(s, s.subscribers[k]);
      }
    }
  }

  /**
   With one publisher and no drop, wherever a subscriber attaches: what it has been sent is a beginning of
   the log beyond its cursor up to the first terminal event; it is all of that once the stream has ended,
   and also once its channel is empty with nothing left to push.
   */
  lemma HandoffIsExact(taskID: string, actions: seq<Action>, sub: Subscriber)
    requires AlwaysOrderly(taskID, actions)
    requires sub in Run(Initial(taskID), actions).subscribers
    ensures var s := Run(Initial(taskID), actions);
      && sub.sent <= UpToTerminal(EventsAfter(s.log, sub.after))
      && (sub.status.Ended? || Drained(s, sub) ==> sub.sent == UpToTerminal(EventsAfter(s.log, sub.after)))
  {
    var s := Run(Initial(taskID), actions);
    var k: nat :| k < |s.subscribers| && s.subscribers[k] == sub;
    OrderlyIsInTurn(taskID, actions, k);
    HandoffWhenInTurn(taskID, actions, k);
  }

  /** What a subscriber served in turn was sent is one contiguous stretch of the log from its cursor. */
  lemma SentIsSegment(taskID: string, actions: seq<Action>, k: nat)
    requires AlwaysInTurn(taskID, actions, k) && k < |Run(Initial(taskID), actions).subscribers|
    requires 0 <= Run(Initial(taskID), actions).subscribers[k].after
    ensures var s := Run(Initial(taskID), actions); var sub := s.subscribers[k];
      sub.sent != [] ==> sub.after + |sub.sent| <= |s.log| && sub.sent == s.log[sub.after..sub.after + |sub.sent|]
  {
    HandoffWhenInTurn(taskID, actions, k);
    var s := Run(Initial(taskID), actions);
    hide Run;
    UpToTerminalIsPrefix(EventsAfter(s.log, s.subscribers[k].after));
  }
}
