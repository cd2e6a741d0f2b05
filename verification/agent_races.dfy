/** What goes wrong when pushes are out of turn: a race of publishers, and a full channel. */
module AgentRaces {
  import opened Sequences
  import opened TaskEvents
  import opened AgentService
  import opened AgentSubscription
  import opened AgentHandoff

  function Draft(state: EventState): TaskEvent
  {
    TaskEvent("", "", 0, state, "", "", None)
  }

  /** A subscriber attaches, two publishers append, and they push in the opposite order. */
  function Race(): seq<Action>
  {
    [Subscribe(0), Append(Draft(Running)), Append(Draft(Running)), Push(1), Push(0), Receive(0), Receive(0)]
  }

  lemma PushToOnly(s: State, i: nat, sub: Subscriber)
    requires i < |s.unpushed| && s.subscribers == [sub] && sub.status.Open? && |sub.buffer| < CHANNEL_CAPACITY
    ensures Step(s, Push(i)) == s.(unpushed := s.unpushed[..i] + s.unpushed[i + 1..],
                                   subscribers := [sub.(buffer := sub.buffer + [s.unpushed[i]])])
  {
    assert Step(s, Push(i)).subscribers == [sub.(buffer := sub.buffer + [s.unpushed[i]])];
  }

  lemma RaceUpToAppends(taskID: string)
    ensures var e1 := Stamp(taskID, [], Draft(Running)); var e2 := Stamp(taskID, [e1], Draft(Running));
      Run(Initial(taskID), Race()[..3]) == State(taskID, [e1, e2], [e1, e2], [Subscriber(0, [], 0, [], Open)])
  {
    var s0, all := Initial(taskID), Race();
    var e1 := Stamp(taskID, [], Draft(Running));
    assert Run(s0, all[..0]) == s0;
    hide Run;
    assert all[..0] + [all[0]] == all[..1];
    RunNext(s0, all[..0], all[0]);
    assert Run(s0, all[..1]) == State(taskID, [], [], [Subscriber(0, [], 0, [], Open)]);
    assert all[..1] + [all[1]] == all[..2];
    RunNext(s0, all[..1], all[1]);
    assert Run(s0, all[..2]) == State(taskID, [e1], [e1], [Subscriber(0, [], 0, [], Open)]);
    assert all[..2] + [all[2]] == all[..3];
    RunNext(s0, all[..2], all[2]);
  }

  lemma RaceUpToPushes(taskID: string)
    ensures var e1 := Stamp(taskID, [], Draft(Running)); var e2 := Stamp(taskID, [e1], Draft(Running));
      Run(Initial(taskID), Race()[..5]) == State(taskID, [e1, e2], [], [Subscriber(0, [e2, e1], 0, [], Open)])
  {
    hide Run;
    hide Step;
    hide Stamp;
    var s0, all := Initial(taskID), Race();
    var e1 := Stamp(taskID, [], Draft(Running));
    var e2 := Stamp(taskID, [e1], Draft(Running));
    RaceUpToAppends(taskID);
    assert all[..3] + [all[3]] == all[..4];
    RunNext(s0, all[..3], all[3]);
    PushToOnly(Run(s0, all[..3]), 1, Subscriber(0, [], 0, [], Open));
    assert [e1, e2][..1] + [e1, e2][2..] == [e1] && [] + [e2] == [e2];
    assert Run(s0, all[..4]) == State(taskID, [e1, e2], [e1], [Subscriber(0, [e2], 0, [], Open)]);
    assert all[..4] + [all[4]] == all[..5];
    RunNext(s0, all[..4], all[4]);
    PushToOnly(Run(s0, all[..4]), 0, Subscriber(0, [e2], 0, [], Open));
    assert [e1][..0] + [e1][1..] == [] && [e2] + [e1] == [e2, e1];
  }

  /** Two publishers that race can leave a live, drained subscriber without the first event of the log. */
  lemma RacingPublishersLoseAnEvent(taskID: string)
    ensures var s := Run(Initial(taskID), Race());
      && |s.subscribers| == 1 && s.unpushed == [] && |s.log| == 2
      && var sub := s.subscribers[0];
         sub.status.Open? && sub.buffer == [] && sub.sent == [s.log[1]]
           && UpToTerminal(EventsAfter(s.log, sub.after)) == s.log
  {
    var s0, all := Initial(taskID), Race();
    var e1 := Stamp(taskID, [], Draft(Running));
    var e2 := Stamp(taskID, [e1], Draft(Running));
    RaceUpToPushes(taskID);
    hide Run;
    assert all[..5] + [all[5]] == all[..6];
    RunNext(s0, all[..5], all[5]);
    assert [e2, e1][1..] == [e1] && [] + [e2] == [e2] && [e1][1..] == [];
    assert Run(s0, all[..6]) == State(taskID, [e1, e2], [], [Subscriber(0, [e1], 2, [e2], Open)]);
    assert all[..6] + [all[6]] == all;
    RunNext(s0, all[..6], all[6]);
    NoTerminal([e1, e2]);
  }

  // ---- A full channel ----

  /** One publisher appends and pushes n events to a subscriber that receives none of them. */
  function Burst(n: nat): seq<Action>
  {
    if n == 0 then [Subscribe(0)] else Burst(n - 1) + [Append(Draft(Running))] + [Push(0)]
  }

  function Receives(n: nat): seq<Action>
  {
    if n == 0 then [] else Receives(n - 1) + [Receive(0)]
  }

  /** The log of n events that a burst leaves. */
  function Burned(taskID: string, n: nat): (log: seq<TaskEvent>)
    ensures |log| == n && Dense(taskID, log)
    ensures forall e <- log :: e.state == Running
  {
    if n == 0 then [] else Burned(taskID, n - 1) + [Stamp(taskID, Burned(taskID, n - 1), Draft(Running))]
  }

  function Kept(log: seq<TaskEvent>): seq<TaskEvent>
  {
    if |log| <= CHANNEL_CAPACITY then log else log[..CHANNEL_CAPACITY]
  }

  lemma {:induction false} BurstFills(taskID: string, n: nat)
    ensures Run(Initial(taskID), Burst(n))
            == State(taskID, Burned(taskID, n), [], [Subscriber(0, Kept(Burned(taskID, n)), 0, [], Open)])
  {
    var s0 := Initial(taskID);
    if n == 0 {
      RunNext(s0, [], Subscribe(0));
      assert [] + [Subscribe(0)] == [Subscribe(0)];
      assert s0.subscribers + [Subscriber(0, [], 0, [], Open)] == [Subscriber(0, [], 0, [], Open)];
    } else {
      BurstFills(taskID, n - 1);
      var log, e := Burned(taskID, n - 1), Stamp(taskID, Burned(taskID, n - 1), Draft(Running));
      var sub := Subscriber(0, Kept(log), 0, [], Open);
      RunNext(s0, Burst(n - 1), Append(Draft(Running)));
      RunNext(s0, Burst(n - 1) + [Append(Draft(Running))], Push(0));
      hide Run;
      PushToLast(State(taskID, log + [e], [e], [sub]), sub, e);
      OfferKeeps(log, e);
      hide Kept;
      assert [] + [e] == [e];
    }
  }

  lemma OfferKeeps(log: seq<TaskEvent>, e: TaskEvent)
    ensures Offer(Kept(log), e) == Kept(log + [e])
  {
    if |log| >= CHANNEL_CAPACITY {
      assert (log + [e])[..CHANNEL_CAPACITY] == log[..CHANNEL_CAPACITY];
    }
  }

  lemma PushToLast(s: State, sub: Subscriber, e: TaskEvent)
    requires s.unpushed == [e] && s.subscribers == [sub]
    ensures Step(s, Push(0)) == s.(unpushed := [], subscribers := [Offered(sub, e)])
  {
    assert Step(s, Push(0)).subscribers == [Offered(sub, e)];
    assert [e][..0] + [e][1..] == [];
  }

  /** The subscriber of a burst after n receives. */
  function Draining(log: seq<TaskEvent>, n: nat): Subscriber
    requires n <= CHANNEL_CAPACITY <= |log|
  {
    Subscriber(0, log[n..CHANNEL_CAPACITY], n, log[..n], Open)
  }

  lemma ReceiveDrains(taskID: string, log: seq<TaskEvent>, n: nat)
    requires Dense(taskID, log) && 0 < n <= CHANNEL_CAPACITY <= |log| && forall e <- log :: e.state == Running
    ensures Received(Draining(log, n - 1)) == Draining(log, n)
  {
    var e := log[n - 1];
    var buffer := log[n - 1..CHANNEL_CAPACITY];
    assert buffer[0] == e && e in log && e.sequence == n && buffer[1..] == log[n..CHANNEL_CAPACITY];
    assert log[..n - 1] + [e] == log[..n];
  }

  lemma ReceiveByOnly(s: State, sub: Subscriber)
    requires s.subscribers == [sub]
    ensures Step(s, Receive(0)) == s.(subscribers := [Received(sub)])
  {
  }

  lemma {:induction false} ReceivesDrain(taskID: string, log: seq<TaskEvent>, actions: seq<Action>, n: nat)
    requires Dense(taskID, log) && n <= CHANNEL_CAPACITY <= |log| && forall e <- log :: e.state == Running
    requires Run(Initial(taskID), actions) == State(taskID, log, [], [Draining(log, 0)])
    ensures Run(Initial(taskID), actions + Receives(n)) == State(taskID, log, [], [Draining(log, n)])
  {
    if n == 0 {
      assert actions + [] == actions;
    } else {
      ReceivesDrain(taskID, log, actions, n - 1);
      assert actions + Receives(n) == actions + Receives(n - 1) + [Receive(0)];
      RunNext(Initial(taskID), actions + Receives(n - 1), Receive(0));
      ReceiveDrains(taskID, log, n);
      hide Run;
      hide Step;
      hide Draining;
      hide Received;
      ReceiveByOnly(State(taskID, log, [], [Draining(log, n - 1)]), Draining(log, n - 1));
    }
  }

  lemma BurstDrains(taskID: string, n: nat, room: nat)
    requires n > room == CHANNEL_CAPACITY
    ensures var log := Burned(taskID, n);
      Run(Initial(taskID), Burst(n) + Receives(room)) == State(taskID, log, [], [Draining(log, room)])
  {
    BurstFills(taskID, n);
    var log := Burned(taskID, n);
    hide Run;
    assert Draining(log, 0) == Subscriber(0, Kept(log), 0, [], Open);
    ReceivesDrain(taskID, log, Burst(n), room);
  }

  lemma BurstLeavesAGap(taskID: string, n: nat, room: nat)
    requires n > room == CHANNEL_CAPACITY
    ensures var s := Run(Initial(taskID), Burst(n) + Receives(room));
      && |s.subscribers| == 1 && |s.log| == n && Drained(s, s.subscribers[0]) && s.subscribers[0].after == 0
      && s.subscribers[0].sent == s.log[..room] && UpToTerminal(EventsAfter(s.log, 0)) == s.log
  {
    BurstDrains(taskID, n, room);
    var log := Burned(taskID, n);
    NoTerminal(log);
    assert EventsAfter(log, 0) == log;
    assert log[room..CHANNEL_CAPACITY] == [];
    hide Run;
    hide UpToTerminal;
    hide EventsAfter;
    hide Burned;
    hide Burst;
    hide Receives;
  }

  /** A burst longer than the channel, pushed to an idle subscriber: what found the channel full is gone. */
  lemma FullChannelLosesAnEvent(taskID: string, n: nat, room: nat)
    requires n > room == CHANNEL_CAPACITY
    ensures var actions := Burst(n) + Receives(room);
      var s := Run(Initial(taskID), actions);
      && |s.subscribers| == 1 && |s.log| == n && Drained(s, s.subscribers[0])
      && s.subscribers[0].sent == s.log[..room] && UpToTerminal(EventsAfter(s.log, 0)) == s.log
      && !AlwaysInTurn(taskID, actions, 0)
  {
    BurstLeavesAGap(taskID, n, room);
    hide Run;
    hide AlwaysInTurn;
    hide UpToTerminal;
    hide EventsAfter;
    hide Drained;
    hide Burst;
    hide Receives;
    HandoffIsExactIff(taskID, Burst(n) + Receives(room), 0);
  }
}
