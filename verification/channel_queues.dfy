/** What a worker's queue holds over every interleaving of sends: the messages enqueued for it, in order. */
module ChannelQueues {
  import opened Sequences
  import opened ChannelSplit
  import opened ChannelSend
  import opened ChannelRuns

  /** The step starts or stops the channel's worker. */
  predicate Resets(a: Action, c: string)
  {
    (a.StartWorker? && a.channelID == c) || (a.StopWorker? && a.channelID == c)
  }

  /** The step moves this send, of the channel, from pending to enqueued. */
  predicate Enqueues(s: State, a: Action, c: string)
  {
    && a.Offer? && a.sender < |s.senders| && s.senders[a.sender].message.channelID == c
    && s.senders[a.sender].phase == Pending
    && a.sender < |Step(s, a).senders| && Step(s, a).senders[a.sender].phase == Enqueued
  }

  /** The messages of the sends enqueued for the channel since its worker was started, in the order of their offers. */
  function Placed(channels: map<string, bool>, start: int, actions: seq<Action>, c: string): seq<Outbound>
  {
    if actions == [] then []
    else
      var n := |actions| - 1;
      var s, a := Run(Initial(channels, start), actions[..n]), actions[n];
      if Resets(a, c) then []
      else Placed(channels, start, actions[..n], c)
           + if Enqueues(s, a, c) then [s.senders[a.sender].message] else []
  }

  /** The messages its worker has taken since it was started. */
  function Taken(channels: map<string, bool>, start: int, actions: seq<Action>, c: string): seq<Outbound>
  {
    if actions == [] then []
    else
      var n := |actions| - 1;
      var s, a := Run(Initial(channels, start), actions[..n]), actions[n];
      if Resets(a, c) then []
      else
        Taken(channels, start, actions[..n], c)
        + if a == Take(c) && c in s.store.queues && s.store.queues[c].items != [] then [s.store.queues[c].items[0]]
          else []
  }

  /** One step adds the message it enqueues at the end, takes the head, or leaves the queue alone. */
  lemma StepOnQueue(s: State, a: Action, c: string)
    ensures var after := Step(s, a);
      if Resets(a, c) then
        c in after.store.queues <==> a.StartWorker?
      else
        && (c in after.store.queues <==> c in s.store.queues)
        && (c !in s.store.queues ==> !Enqueues(s, a, c))
        && (c in s.store.queues ==>
              var before, now := s.store.queues[c], after.store.queues[c];
              && now.capacity == before.capacity
              && (Enqueues(s, a, c) ==>
                    |before.items| < before.capacity && now.items == before.items + [s.senders[a.sender].message])
              && (a == Take(c) && before.items != [] ==> before.items == [before.items[0]] + now.items)
              && (!Enqueues(s, a, c) && !(a == Take(c) && before.items != []) ==> now == before))
    ensures a.StartWorker? && a.channelID == c ==> Step(s, a).store.queues[c] == Queue(a.capacity, [])
  {
  }

  /**
   In every interleaving, while a worker runs: the messages it has taken, followed by those in its queue, are exactly
   the messages of the sends that were enqueued for its channel, in the order of their offers; and the queue is within
   its capacity.
   */
  lemma {:induction false} QueueHoldsEnqueued(channels: map<string, bool>, start: int, actions: seq<Action>, c: string)
    requires c in Run(Initial(channels, start), actions).store.queues
    ensures var q := Run(Initial(channels, start), actions).store.queues[c];
      && Taken(channels, start, actions, c) + q.items == Placed(channels, start, actions, c)
      && |q.items| <= q.capacity
  {
    if actions != [] {
      var n := |actions| - 1;
      var s, a := Run(Initial(channels, start), actions[..n]), actions[n];
      StepOnQueue(s, a, c);
      hide Step;
      hide Enqueues;
      if !Resets(a, c) {
        QueueHoldsEnqueued(channels, start, actions[..n], c);
        var before, now := s.store.queues[c].items, Run(Initial(channels, start), actions).store.queues[c].items;
        var taken, placed := Taken(channels, start, actions[..n], c), Placed(channels, start, actions[..n], c);
        var more := if Enqueues(s, a, c) then [s.senders[a.sender].message] else [];
        var head := if a == Take(c) && before != [] then [before[0]] else [];
        assert Placed(channels, start, actions, c) == placed + more;
        assert Taken(channels, start, actions, c) == taken + head;
        hide Placed;
        hide Taken;
        hide Run;
        hide Resets;
        Carries(taken, before, head, now, more);
      }
    }
  }

  /** What leaves at the front and what joins at the end. */
  lemma Carries(taken: seq<Outbound>, before: seq<Outbound>, head: seq<Outbound>, now: seq<Outbound>,
                more: seq<Outbound>)
    requires before + more == head + now
    ensures (taken + head) + now == (taken + before) + more
  {
    assert (taken + head) + now == taken + (head + now);
    assert (taken + before) + more == taken + (before + more);
  }
}
