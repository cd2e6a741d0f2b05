/**
 The handoff from replay to live events, over every interleaving of one task's publishers and subscribers.

 A publisher appends its event to the log in one step and pushes it to the registered channels in
 another. Subscribing registers the channel and replays the log in one step.
 */
module AgentSubscription {
  import opened Sequences
  import opened TaskEvents
  import opened Text
  import opened AgentService

  datatype Status = Open | Ended | Left

  datatype Subscriber = Subscriber(after: int, buffer: seq<TaskEvent>, last: int, sent: seq<TaskEvent>, status: Status)

  /** unpushed holds the events that are in the log and still to be pushed. */
  datatype State = State(taskID: string, log: seq<TaskEvent>, unpushed: seq<TaskEvent>, subscribers: seq<Subscriber>)

  datatype Action =
    | Append(draft: TaskEvent)
    | Push(publisher: nat)
    | Subscribe(after: int)
    | Receive(subscriber: nat)
    | Leave(subscriber: nat)

  function Initial(taskID: string): State
  {
    State(taskID, [], [], [])
  }

  function Offered(sub: Subscriber, e: TaskEvent): Subscriber
  {
    if sub.status.Open? then sub.(buffer := Offer(sub.buffer, e)) else sub
  }

  /** One turn of the receive loop. */
  function Received(sub: Subscriber): Subscriber
  {
    if !sub.status.Open? || sub.buffer == [] then sub
    else
      var e := sub.buffer[0];
      if Skips(sub.last, e) then sub.(buffer := sub.buffer[1..])
      else Subscriber(sub.after, sub.buffer[1..], Advance(sub.last, e), sub.sent + [e],
                      if IsTerminalEvent(e.state) then Ended else Open)
  }

  function Step(s: State, a: Action): State
  {
    match a
    case Append(draft) =>
      var e := Stamp(s.taskID, s.log, draft);
      s.(log := s.log + [e], unpushed := s.unpushed + [e])
    case Push(i) =>
      if i < |s.unpushed| then
        s.(unpushed := s.unpushed[..i] + s.unpushed[i + 1..],
           subscribers := seq(|s.subscribers|,
                              k requires 0 <= k < |s.subscribers| => Offered(s.subscribers[k], s.unpushed[i])))
      else s
    case Subscribe(after) =>
      var replay := EventsAfter(s.log, after);
      if |replay| <= CHANNEL_CAPACITY
      then s.(subscribers := s.subscribers + [Subscriber(after, replay, after, [], Open)]) else s
    case Receive(k) =>
      if k < |s.subscribers| then s.(subscribers := s.subscribers[k := Received(s.subscribers[k])]) else s
    case Leave(k) =>
      if k < |s.subscribers| && s.subscribers[k].status.Open?
      then s.(subscribers := s.subscribers[k := s.subscribers[k].(status := Left)]) else s
  }

  function Run(s: State, actions: seq<Action>): State
  {
    if actions == [] then s else Step(Run(s, actions[..|actions| - 1]), actions[|actions| - 1])
  }

  // ---- Any number of publishers, any drops ----

  predicate FromLog(log: seq<TaskEvent>, e: TaskEvent)
  {
    1 <= e.sequence <= |log| && log[e.sequence - 1] == e
  }

  /** What is sent comes from the log beyond the cursor, in strictly increasing sequence. */
  predicate Increasing(log: seq<TaskEvent>, after: int, sent: seq<TaskEvent>)
  {
    && (forall e <- sent :: FromLog(log, e) && e.sequence > after)
    && (forall i, j :: 0 <= i < j < |sent| ==> sent[i].sequence < sent[j].sequence)
  }

  predicate SoundSubscriber(log: seq<TaskEvent>, sub: Subscriber)
  {
    && (forall e <- sub.buffer :: FromLog(log, e))
    && Increasing(log, sub.after, sub.sent)
    && sub.last == (if sub.sent == [] then sub.after else sub.sent[|sub.sent| - 1].sequence)
    && (sub.status.Open? ==> forall e <- sub.sent :: !IsTerminalEvent(e.state))
  }

  ghost predicate Sound(s: State)
  {
    && Dense(s.taskID, s.log)
    && (forall e <- s.unpushed :: FromLog(s.log, e))
    && (forall i, j :: 0 <= i < j < |s.unpushed| ==> s.unpushed[i].sequence != s.unpushed[j].sequence)
    && (forall sub <- s.subscribers :: SoundSubscriber(s.log, sub))
  }

  lemma GrowthKeepsSound(log: seq<TaskEvent>, e: TaskEvent, sub: Subscriber)
    requires SoundSubscriber(log, sub)
    ensures SoundSubscriber(log + [e], sub)
  {
    forall x | FromLog(log, x) ensures FromLog(log + [e], x) {}
  }

  lemma ReceiveKeepsSound(log: seq<TaskEvent>, sub: Subscriber)
    requires SoundSubscriber(log, sub)
    ensures SoundSubscriber(log, Received(sub))
  {
    if sub.status.Open? && sub.buffer != [] {
      var e := sub.buffer[0];
      assert e in sub.buffer;
      var after := Received(sub);
      if !Skips(sub.last, e) {
        assert after.sent[|sub.sent|] == e;
        forall i | 0 <= i < |sub.sent| ensures sub.sent[i].sequence < e.sequence {
          assert sub.sent[i] in sub.sent;
        }
      }
    }
  }

  lemma AppendKeepsSound(s: State, draft: TaskEvent)
    requires Sound(s)
    ensures Sound(Step(s, Append(draft)))
  {
    var after := Step(s, Append(draft));
    var e := Stamp(s.taskID, s.log, draft);
    forall x <- s.unpushed ensures x.sequence < e.sequence {
      assert FromLog(s.log, x);
    }
    assert forall i :: 0 <= i < |s.unpushed| ==> s.unpushed[i] in s.unpushed;
    hide SoundSubscriber;
    forall sub <- s.subscribers ensures SoundSubscriber(after.log, sub) {
      GrowthKeepsSound(s.log, e, sub);
    }
  }

  lemma PushKeepsSound(s: State, i: nat)
    requires Sound(s) && i < |s.unpushed|
    ensures Sound(Step(s, Push(i)))
  {
    var after := Step(s, Push(i));
    assert s.unpushed[i] in s.unpushed;
    hide Increasing;
    hide FromLog;
    hide Dense;
    forall sub <- after.subscribers ensures SoundSubscriber(after.log, sub) {
      var k :| 0 <= k < |after.subscribers| && after.subscribers[k] == sub;
      assert s.subscribers[k] in s.subscribers;
    }
  }

  lemma SubscribeKeepsSound(s: State, cursor: int)
    requires Sound(s)
    ensures Sound(Step(s, Subscribe(cursor)))
  {
    assert forall e <- EventsAfter(s.log, cursor) :: FromLog(s.log, e);
    hide EventsAfter;
    hide FromLog;
    hide Dense;
  }

  lemma ChangeKeepsSound(s: State, k: nat, sub: Subscriber)
    requires Sound(s) && k < |s.subscribers| && SoundSubscriber(s.log, sub)
    ensures Sound(s.(subscribers := s.subscribers[k := sub]))
  {
    hide SoundSubscriber;
    hide Dense;
  }

  lemma StepKeepsSound(s: State, a: Action)
    requires Sound(s)
    ensures Sound(Step(s, a))
  {
    assert forall k :: 0 <= k < |s.subscribers| ==> SoundSubscriber(s.log, s.subscribers[k]);
    hide Sound;
    match a {
      case Append(draft) => AppendKeepsSound(s, draft);
      case Push(i) =>
        if i < |s.unpushed| {
          PushKeepsSound(s, i);
        }
      case Subscribe(cursor) => SubscribeKeepsSound(s, cursor);
      case Receive(k) =>
        if k < |s.subscribers| {
          ReceiveKeepsSound(s.log, s.subscribers[k]);
          ChangeKeepsSound(s, k, Received(s.subscribers[k]));
        }
      case Leave(k) =>
        if k < |s.subscribers| && s.subscribers[k].status.Open? {
          ChangeKeepsSound(s, k, s.subscribers[k].(status := Left));
        }
    }
  }

  /** However publishers race and whatever full channels drop, no subscriber sees an event twice or out of order. */
  lemma {:induction false} SentIsIncreasing(taskID: string, actions: seq<Action>)
    ensures Sound(Run(Initial(taskID), actions))
  {
    if actions != [] {
      var n := |actions| - 1;
      SentIsIncreasing(taskID, actions[..n]);
      StepKeepsSound(Run(Initial(taskID), actions[..n]), actions[n]);
    }
  }

  // ---- The receive loop ----

  /** Turns of the receive loop with nothing in between. */
  function AfterTurns(sub: Subscriber, turns: nat): Subscriber
    decreases turns
  {
    if turns == 0 then sub else AfterTurns(Received(sub), turns - 1)
  }

  /** Taking turns until the channel is empty sends what the receive method sends. */
  lemma {:induction false} TurnsAreTheLoop(sub: Subscriber)
    requires sub.status.Open?
    ensures AfterTurns(sub, |sub.buffer|).sent == sub.sent + UpToTerminal(Accepted(sub.last, sub.buffer))
    decreases |sub.buffer|
  {
    if sub.buffer == [] {
      assert sub.sent + [] == sub.sent;
    } else {
      var e, next := sub.buffer[0], Received(sub);
      if next.status.Open? {
        TurnsAreTheLoop(next);
        if !Skips(sub.last, e) {
          var rest := UpToTerminal(Accepted(next.last, next.buffer));
          assert sub.sent + ([e] + rest) == sub.sent + [e] + rest;
        }
      } else {
        EndedStays(next, |sub.buffer| - 1);
      }
    }
  }

  lemma {:induction false} EndedStays(sub: Subscriber, turns: nat)
    requires sub.status.Ended?
    ensures AfterTurns(sub, turns) == sub
  {
    if turns > 0 {
      EndedStays(sub, turns - 1);
    }
  }

  lemma RunNext(s: State, actions: seq<Action>, a: Action)
    ensures Run(s, actions + [a]) == Step(Run(s, actions), a)
  {
    assert (actions + [a])[..|actions|] == actions;
  }

  // ---- What the log holds ----

  /** What publishers appended, in order. */
  function Drafts(actions: seq<Action>): seq<TaskEvent>
  {
    if actions == [] then []
    else
      var n := |actions| - 1;
      Drafts(actions[..n]) + if actions[n].Append? then [actions[n].draft] else []
  }

  /** The log holds every event as it was appended, numbered from 1 and named by its number. */
  lemma {:induction false} LogHoldsDrafts(taskID: string, actions: seq<Action>)
    ensures var log, drafts := Run(Initial(taskID), actions).log, Drafts(actions);
      && |log| == |drafts|
      && forall i :: 0 <= i < |log| ==>
           log[i] == drafts[i].(taskID := taskID, sequence := i + 1, eventID := taskID + "-" + Decimal(i + 1))
  {
    if actions != [] {
      var n := |actions| - 1;
      LogHoldsDrafts(taskID, actions[..n]);
      TaskIDStays(taskID, actions[..n]);
    }
  }

  lemma {:induction false} TaskIDStays(taskID: string, actions: seq<Action>)
    ensures Run(Initial(taskID), actions).taskID == taskID
  {
    if actions != [] {
      TaskIDStays(taskID, actions[..|actions| - 1]);
    }
  }
}
