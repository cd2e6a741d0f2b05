/**
 Inbound fan-out: bounded subscriber queues, counted drops, and subscriptions that close once.

 Publishers run concurrently under a read lock, each visiting the subscriptions in any order; subscribing,
 cancelling and stopping take the write lock and wait until no publisher is iterating.
 */
module ChannelFanout {
  import opened Sequences
  import opened Text

  const QUEUE_CAPACITY: nat := 64

  datatype Inbound = Inbound(channelID: string, messageID: string, content: string, metadata: map<string, string>)

  datatype GroupPolicy = GroupPolicy(mentionOnly: bool, prefixes: seq<string>)

  // ---- Group triggers ----

  predicate IsGroup(m: Inbound)
  {
    "scope" in m.metadata && m.metadata["scope"] == "group"
  }

  predicate IsMentioned(m: Inbound)
  {
    "mentioned" in m.metadata && m.metadata["mentioned"] == "true"
  }

  predicate Triggers(prefix: string, content: string)
  {
    prefix != "" && prefix <= content
  }

  /** i is the first prefix of the policy that the content starts with. */
  predicate IsFirstPrefix(prefixes: seq<string>, content: string, i: nat)
  {
    i < |prefixes| && Triggers(prefixes[i], content) && forall j :: 0 <= j < i ==> !Triggers(prefixes[j], content)
  }

  /** Group messages pass when they mention the bot, or the policy lets unmentioned ones pass. */
  method ApplyGroupTrigger(policy: GroupPolicy, m: Inbound) returns (accepted: Option<Inbound>)
    ensures !IsGroup(m) ==> accepted == Some(m)
    ensures IsGroup(m) && IsMentioned(m) ==> accepted == Some(m.(content := TrimSpace(m.content)))
    ensures IsGroup(m) && !IsMentioned(m) ==>
      (accepted == None <==>
         policy.mentionOnly || (policy.prefixes != [] && forall p <- policy.prefixes :: p == "" || !(p <= m.content)))
    ensures IsGroup(m) && !IsMentioned(m) && accepted.Some? && policy.prefixes == [] ==>
      accepted == Some(m.(content := TrimSpace(m.content)))
    ensures IsGroup(m) && !IsMentioned(m) && accepted.Some? && policy.prefixes != [] ==>
      exists i: nat :: IsFirstPrefix(policy.prefixes, m.content, i)
                       && accepted == Some(m.(content := TrimSpace(m.content[|policy.prefixes[i]|..])))
  {
    if !("scope" in m.metadata && m.metadata["scope"] == "group") {
      return Some(m);
    }
    if "mentioned" in m.metadata && m.metadata["mentioned"] == "true" {
      return Some(m.(content := TrimSpace(m.content)));
    }
    if policy.mentionOnly {
      return None;
    }
    if policy.prefixes == [] {
      return Some(m.(content := TrimSpace(m.content)));
    }
    for i := 0 to |policy.prefixes|
      invariant forall j :: 0 <= j < i ==> !Triggers(policy.prefixes[j], m.content)
      invariant forall p <- policy.prefixes[..i] :: p == "" || !(p <= m.content)
    {
      var prefix := policy.prefixes[i];
      if prefix != "" && prefix <= m.content {
        assert IsFirstPrefix(policy.prefixes, m.content, i) && prefix in policy.prefixes;
        return Some(m.(content := TrimSpace(m.content[|prefix|..])));
      }
    }
    assert policy.prefixes[..|policy.prefixes|] == policy.prefixes;
    return None;
  }

  // ---- Subscriptions ----

  /** offered and received are histories: what publishers tried to enqueue here, and what the consumer took. */
  datatype Subscription = Subscription(
    filter: set<string>, queue: seq<Inbound>, live: bool, closes: nat, offered: seq<Inbound>, received: seq<Inbound>)

  function NewSubscription(filter: set<string>): Subscription
  {
    Subscription(filter, [], true, 0, [], [])
  }

  predicate Matches(filter: set<string>, m: Inbound)
  {
    filter == {} || m.channelID in filter
  }

  /** A non-blocking send to one subscription. */
  function Offered(sub: Subscription, m: Inbound): Subscription
  {
    if !Matches(sub.filter, m) then sub
    else if |sub.queue| < QUEUE_CAPACITY then sub.(queue := sub.queue + [m], offered := sub.offered + [m])
    else sub.(offered := sub.offered + [m])
  }

  predicate Drops(sub: Subscription, m: Inbound)
  {
    Matches(sub.filter, m) && |sub.queue| >= QUEUE_CAPACITY
  }

  function Closed(sub: Subscription): Subscription
  {
    sub.(live := false, closes := sub.closes + 1)
  }

  datatype Phase = Iterating | Unlocked | Counted

  /** scope is the set of subscriptions live when it took the lock. */
  datatype Publisher = Publisher(message: Inbound, scope: set<nat>, visited: set<nat>, dropped: nat, phase: Phase)

  datatype State = State(subs: seq<Subscription>, publishers: seq<Publisher>, dropCounter: nat)

  const INITIAL := State([], [], 0)

  datatype Action =
    | Publish(message: Inbound)
    | Visit(publisher: nat, sub: nat)
    | Unlock(publisher: nat)
    | CountDrops(publisher: nat)
    | Subscribe(filter: set<string>)
    | Cancel(sub: nat)               // the cancel function, or the end of the subscriber's context
    | Stop
    | Receive(sub: nat)

  predicate Writable(s: State)
  {
    forall p <- s.publishers :: !p.phase.Iterating?
  }

  function Step(s: State, a: Action): State
  {
    match a
    case Publish(m) =>
      var scope := set k | 0 <= k < |s.subs| && s.subs[k].live;
      s.(publishers := s.publishers + [Publisher(m, scope, {}, 0, Iterating)])
    case Visit(i, k) =>
      if i < |s.publishers| && s.publishers[i].phase.Iterating?
        && k in s.publishers[i].scope - s.publishers[i].visited && k < |s.subs| then
        var p := s.publishers[i];
        var dropped := if Drops(s.subs[k], p.message) then p.dropped + 1 else p.dropped;
        State(s.subs[k := Offered(s.subs[k], p.message)],
              s.publishers[i := p.(visited := p.visited + {k}, dropped := dropped)],
              s.dropCounter)
      else s
    case Unlock(i) =>
      if i < |s.publishers| && s.publishers[i].phase.Iterating? && s.publishers[i].visited == s.publishers[i].scope
      then s.(publishers := s.publishers[i := s.publishers[i].(phase := Unlocked)]) else s
    case CountDrops(i) =>
      if i < |s.publishers| && s.publishers[i].phase.Unlocked?
      then s.(publishers := s.publishers[i := s.publishers[i].(phase := Counted)],
              dropCounter := s.dropCounter + s.publishers[i].dropped)
      else s
    case Subscribe(filter) =>
      if Writable(s) then s.(subs := s.subs + [NewSubscription(filter)]) else s
    case Cancel(k) =>
      if Writable(s) && k < |s.subs| && s.subs[k].live then s.(subs := s.subs[k := Closed(s.subs[k])]) else s
    case Stop =>
      if Writable(s)
      then s.(subs := seq(|s.subs|,
                          k requires 0 <= k < |s.subs| => if s.subs[k].live then Closed(s.subs[k]) else s.subs[k]))
      else s
    case Receive(k) =>
      if k < |s.subs| && s.subs[k].queue != [] then
        var sub := s.subs[k];
        s.(subs := s.subs[k := sub.(queue := sub.queue[1..], received := sub.received + [sub.queue[0]])])
      else s
  }

  function Run(actions: seq<Action>): State
  {
    if actions == [] then INITIAL else Step(Run(actions[..|actions| - 1]), actions[|actions| - 1])
  }

  // ---- Each subscription on its own ----

  /** How many messages offered to a subscription never reached its queue. */
  function Missed(sub: Subscription): int
  {
    |sub.offered| - |sub.received| - |sub.queue|
  }

  ghost predicate SoundSubscription(sub: Subscription)
  {
    && |sub.queue| <= QUEUE_CAPACITY
    && IsSubsequence(sub.received + sub.queue, sub.offered)
    && Missed(sub) >= 0
    && sub.closes == (if sub.live then 0 else 1)
    && (forall m <- sub.offered :: Matches(sub.filter, m))
  }

  lemma NewIsSound(filter: set<string>)
    ensures SoundSubscription(NewSubscription(filter)) && Missed(NewSubscription(filter)) == 0
  {
    SubsequenceEmpty<Inbound>([]);
    assert [] + NewSubscription(filter).queue == [];
  }

  lemma OfferIsSound(sub: Subscription, m: Inbound)
    requires SoundSubscription(sub)
    ensures SoundSubscription(Offered(sub, m))
    ensures Missed(Offered(sub, m)) == Missed(sub) + (if Drops(sub, m) then 1 else 0)
  {
    var kept := sub.received + sub.queue;
    SubsequenceSkips(kept, sub.offered, m);
    SubsequenceTakes(kept, sub.offered, m);
    assert sub.received + (sub.queue + [m]) == kept + [m];
  }

  lemma ReceiveIsSound(sub: Subscription)
    requires SoundSubscription(sub) && sub.queue != []
    ensures var after := sub.(queue := sub.queue[1..], received := sub.received + [sub.queue[0]]);
      SoundSubscription(after) && Missed(after) == Missed(sub)
  {
    assert sub.received + [sub.queue[0]] + sub.queue[1..] == sub.received + sub.queue;
  }

  // ---- The drop counter ----

  function MissedBy(): Subscription -> nat
  {
    (sub: Subscription) => if Missed(sub) >= 0 then Missed(sub) else 0
  }

  function Uncounted(): Publisher -> nat
  {
    (p: Publisher) => if p.phase.Counted? then 0 else p.dropped
  }

  /** What one publisher has tried to enqueue at subscription k. */
  function SeenFrom(p: Publisher, k: nat, filter: set<string>): seq<Inbound>
  {
    if k in p.visited && Matches(filter, p.message) then [p.message] else []
  }

  /** The messages publishers have tried to enqueue at subscription k, in the order the publishers came. */
  function Seen(publishers: seq<Publisher>, k: nat, filter: set<string>): seq<Inbound>
  {
    if publishers == [] then []
    else Seen(publishers[..|publishers| - 1], k, filter) + SeenFrom(publishers[|publishers| - 1], k, filter)
  }

  /** The same messages, whatever their order. */
  function SeenAt(publishers: seq<Publisher>, k: nat, filter: set<string>): multiset<Inbound>
  {
    if publishers == [] then multiset{}
    else SeenAt(publishers[..|publishers| - 1], k, filter) + multiset(SeenFrom(publishers[|publishers| - 1], k, filter))
  }

  lemma {:induction false} SeenAgrees(publishers: seq<Publisher>, k: nat, filter: set<string>)
    ensures SeenAt(publishers, k, filter) == multiset(Seen(publishers, k, filter))
  {
    if publishers != [] {
      SeenAgrees(publishers[..|publishers| - 1], k, filter);
    }
  }

  /** What a publisher's next visit adds at subscription k. */
  function Added(p: Publisher, q: Publisher, k: nat, filter: set<string>): multiset<Inbound>
  {
    if k in q.visited && k !in p.visited && Matches(filter, q.message) then multiset{q.message} else multiset{}
  }

  lemma AddedIsDifference(p: Publisher, q: Publisher, k: nat, filter: set<string>)
    requires q.message == p.message && (k in p.visited ==> k in q.visited)
    ensures multiset(SeenFrom(q, k, filter)) == multiset(SeenFrom(p, k, filter)) + Added(p, q, k, filter)
  {
  }

  /** One publisher's visit adds its message, if it matches, and nothing else. */
  lemma {:induction false} SeenAtUpdate(publishers: seq<Publisher>, i: nat, q: Publisher, k: nat, filter: set<string>)
    requires i < |publishers| && q.message == publishers[i].message
    requires k in publishers[i].visited ==> k in q.visited
    ensures SeenAt(publishers[i := q], k, filter) == SeenAt(publishers, k, filter) + Added(publishers[i], q, k, filter)
  {
    hide SeenFrom;
    hide Added;
    var n := |publishers| - 1;
    if i == n {
      assert publishers[i := q][..n] == publishers[..n];
      AddedIsDifference(publishers[i], q, k, filter);
      Reorder(SeenAt(publishers[..n], k, filter), multiset(SeenFrom(publishers[i], k, filter)),
              Added(publishers[i], q, k, filter));
    } else {
      assert publishers[i := q][..n] == publishers[..n][i := q];
      SeenAtUpdate(publishers[..n], i, q, k, filter);
      Reorder(SeenAt(publishers[..n], k, filter), Added(publishers[i], q, k, filter),
              multiset(SeenFrom(publishers[n], k, filter)));
    }
  }

  lemma Reorder(a: multiset<Inbound>, b: multiset<Inbound>, c: multiset<Inbound>)
    ensures a + b + c == a + c + b && a + (b + c) == a + b + c
  {
  }

  /** Subscription k was offered exactly what the publishers that visited it carried, up to order. */
  ghost predicate OffersAccounted(s: State)
  {
    forall k :: 0 <= k < |s.subs| ==> multiset(s.subs[k].offered) == SeenAt(s.publishers, k, s.subs[k].filter)
  }

  ghost predicate Balanced(s: State)
  {
    && (forall sub <- s.subs :: SoundSubscription(sub))
    && VisitsExist(s)
    && OffersAccounted(s)
    && SumBy(s.subs, MissedBy()) == s.dropCounter + SumBy(s.publishers, Uncounted())
  }

  lemma {:induction false} NobodyVisited(publishers: seq<Publisher>, k: nat, filter: set<string>)
    requires forall p <- publishers :: k !in p.visited
    ensures Seen(publishers, k, filter) == [] && SeenAt(publishers, k, filter) == multiset{}
  {
    if publishers != [] {
      NobodyVisited(publishers[..|publishers| - 1], k, filter);
      assert publishers[|publishers| - 1] in publishers;
    }
  }

  /** Replacing a subscription by one with the same history of offers and the same misses. */
  lemma ReplaceKeepsBalance(s: State, k: nat, sub: Subscription)
    requires Balanced(s) && k < |s.subs| && SoundSubscription(sub)
    requires sub.offered == s.subs[k].offered && sub.filter == s.subs[k].filter && Missed(sub) == Missed(s.subs[k])
    ensures Balanced(s.(subs := s.subs[k := sub]))
  {
    hide IsSubsequence;
    hide SeenAt;
    var after := s.(subs := s.subs[k := sub]);
    forall u <- after.subs ensures SoundSubscription(u) { assert u == sub || u in s.subs; }
    SumUpdate(s.subs, k, sub, MissedBy());
    assert s.subs[k] in s.subs;
  }

  predicate Visitable(s: State, i: nat, k: nat)
  {
    && i < |s.publishers| && s.publishers[i].phase.Iterating? && k < |s.subs|
    && k in s.publishers[i].scope - s.publishers[i].visited
  }

  lemma OfferedAdds(sub: Subscription, m: Inbound)
    ensures multiset(Offered(sub, m).offered)
            == multiset(sub.offered) + (if Matches(sub.filter, m) then multiset{m} else multiset{})
    ensures Offered(sub, m).filter == sub.filter
  {
  }

  /** The publisher after its visit to subscription k. */
  function Visited(p: Publisher, sub: Subscription, k: nat): Publisher
  {
    p.(visited := p.visited + {k}, dropped := if Drops(sub, p.message) then p.dropped + 1 else p.dropped)
  }

  lemma VisitAccountsAt(s: State, i: nat, k: nat, j: nat)
    requires OffersAccounted(s) && Visitable(s, i, k) && j < |s.subs|
    ensures var p, sub := s.publishers[i], s.subs[k];
      multiset((if j == k then Offered(sub, p.message) else s.subs[j]).offered)
      == SeenAt(s.publishers[i := Visited(p, sub, k)], j, s.subs[j].filter)
  {
    var p, sub, filter := s.publishers[i], s.subs[k], s.subs[j].filter;
    var q := Visited(p, sub, k);
    assert multiset(s.subs[j].offered) == SeenAt(s.publishers, j, filter);
    assert Added(p, q, j, filter) == if j == k && Matches(filter, p.message) then multiset{p.message} else multiset{};
    hide SeenAt;
    hide Added;
    hide Drops;
    hide OffersAccounted;
    SeenAtUpdate(s.publishers, i, q, j, filter);
    hide Visited;
    OfferedAdds(sub, p.message);
    hide Offered;
  }

  lemma VisitAccounts(s: State, i: nat, k: nat)
    requires OffersAccounted(s) && Visitable(s, i, k)
    ensures OffersAccounted(Step(s, Visit(i, k)))
  {
    var after := Step(s, Visit(i, k));
    OfferedAdds(s.subs[k], s.publishers[i].message);
    assert after.subs == s.subs[k := Offered(s.subs[k], s.publishers[i].message)];
    assert after.publishers == s.publishers[i := Visited(s.publishers[i], s.subs[k], k)];
    forall j | 0 <= j < |after.subs|
      ensures multiset(after.subs[j].offered) == SeenAt(after.publishers, j, after.subs[j].filter)
    {
      VisitAccountsAt(s, i, k, j);
    }
  }

  /** What a visit leaves uncounted is what it makes the subscription miss. */
  lemma VisitSums(s: State, i: nat, k: nat)
    requires Visitable(s, i, k) && SoundSubscription(s.subs[k])
    ensures var after := Step(s, Visit(i, k));
      SumBy(after.subs, MissedBy()) - SumBy(s.subs, MissedBy())
        == SumBy(after.publishers, Uncounted()) - SumBy(s.publishers, Uncounted())
  {
    var p, sub, after := s.publishers[i], s.subs[k], Step(s, Visit(i, k));
    OfferIsSound(sub, p.message);
    SumUpdate(s.subs, k, Offered(sub, p.message), MissedBy());
    SumUpdate(s.publishers, i, after.publishers[i], Uncounted());
  }

  lemma VisitKeepsSound(subs: seq<Subscription>, k: nat, m: Inbound)
    requires k < |subs| && forall u <- subs :: SoundSubscription(u)
    ensures forall u <- subs[k := Offered(subs[k], m)] :: SoundSubscription(u)
  {
    OfferIsSound(subs[k], m);
    hide SoundSubscription;
    hide Offered;
    forall u <- subs[k := Offered(subs[k], m)] ensures SoundSubscription(u) {
      assert u == Offered(subs[k], m) || u in subs;
    }
  }

  ghost predicate VisitsExist(s: State)
  {
    forall p <- s.publishers :: forall k <- p.visited :: k < |s.subs|
  }

  lemma VisitKeepsRange(s: State, i: nat, k: nat)
    requires VisitsExist(s) && Visitable(s, i, k)
    ensures VisitsExist(Step(s, Visit(i, k)))
  {
    var p, after := s.publishers[i], Step(s, Visit(i, k));
    assert p in s.publishers;
    assert after.publishers == s.publishers[i := Visited(p, s.subs[k], k)] && |after.subs| == |s.subs|;
    hide Step;
    forall u <- after.publishers ensures forall j <- u.visited :: j < |after.subs| {
      assert u == Visited(p, s.subs[k], k) || u in s.publishers;
    }
  }

  lemma VisitKeepsBalance(s: State, i: nat, k: nat)
    requires Balanced(s) && Visitable(s, i, k)
    ensures Balanced(Step(s, Visit(i, k)))
  {
    var m, after := s.publishers[i].message, Step(s, Visit(i, k));
    assert s.subs[k] in s.subs;
    assert after.subs == s.subs[k := Offered(s.subs[k], m)] && after.dropCounter == s.dropCounter;
    VisitKeepsRange(s, i, k);
    VisitAccounts(s, i, k);
    VisitSums(s, i, k);
    hide OffersAccounted;
    hide VisitsExist;
    hide Visitable;
    hide Step;
    assert SumBy(after.subs, MissedBy()) == after.dropCounter + SumBy(after.publishers, Uncounted());
    hide SoundSubscription;
    hide SumBy;
    VisitKeepsSound(s.subs, k, m);
  }

  lemma PublisherKeepsBalance(s: State, i: nat, q: Publisher, counter: nat)
    requires Balanced(s) && i < |s.publishers|
    requires q.message == s.publishers[i].message && q.visited == s.publishers[i].visited
    requires counter + Uncounted()(q) == s.dropCounter + Uncounted()(s.publishers[i])
    ensures Balanced(s.(publishers := s.publishers[i := q], dropCounter := counter))
  {
    var after := s.(publishers := s.publishers[i := q], dropCounter := counter);
    assert s.publishers[i] in s.publishers;
    hide SoundSubscription;
    SumUpdate(s.publishers, i, q, Uncounted());
    forall u <- after.publishers ensures forall j <- u.visited :: j < |after.subs| {
      assert u == q || u in s.publishers;
    }
    forall j | 0 <= j < |after.subs|
      ensures multiset(after.subs[j].offered) == SeenAt(after.publishers, j, after.subs[j].filter) {
      SeenAtUpdate(s.publishers, i, q, j, s.subs[j].filter);
    }
  }

  lemma PublishKeepsBalance(s: State, m: Inbound)
    requires Balanced(s)
    ensures Balanced(Step(s, Publish(m)))
  {
    var after := Step(s, Publish(m));
    var p := after.publishers[|s.publishers|];
    SumAppend(s.publishers, p, Uncounted());
    assert after.publishers[..|s.publishers|] == s.publishers;
  }

  lemma SubscribeAccounts(s: State, filter: set<string>)
    requires OffersAccounted(s) && forall p <- s.publishers :: |s.subs| !in p.visited
    ensures OffersAccounted(s.(subs := s.subs + [NewSubscription(filter)]))
  {
    NobodyVisited(s.publishers, |s.subs|, filter);
    var after := s.(subs := s.subs + [NewSubscription(filter)]);
    forall k | 0 <= k < |after.subs|
      ensures multiset(after.subs[k].offered) == SeenAt(after.publishers, k, after.subs[k].filter) {
      if k < |s.subs| { assert after.subs[k] == s.subs[k]; }
    }
  }

  lemma SubscribeKeepsBalance(s: State, filter: set<string>)
    requires Balanced(s)
    ensures Balanced(s.(subs := s.subs + [NewSubscription(filter)]))
  {
    NewIsSound(filter);
    SumAppend(s.subs, NewSubscription(filter), MissedBy());
    SubscribeAccounts(s, filter);
  }

  lemma StopKeepsBalance(s: State)
    requires Balanced(s) && Writable(s)
    ensures Balanced(Step(s, Stop))
  {
    hide IsSubsequence;
    hide SeenAt;
    var after := Step(s, Stop);
    assert forall k :: 0 <= k < |s.subs| ==> s.subs[k] in s.subs;
    SumPointwise(s.subs, after.subs, MissedBy());
  }

  lemma CancelKeepsBalance(s: State, k: nat)
    requires Balanced(s) && k < |s.subs| && s.subs[k].live
    ensures Balanced(s.(subs := s.subs[k := Closed(s.subs[k])]))
  {
    assert SoundSubscription(s.subs[k]);
    hide Balanced;
    hide IsSubsequence;
    ReplaceKeepsBalance(s, k, Closed(s.subs[k]));
  }

  lemma ReceiveKeepsBalance(s: State, k: nat)
    requires Balanced(s)
    ensures Balanced(Step(s, Receive(k)))
  {
    if k < |s.subs| && s.subs[k].queue != [] {
      var sub := s.subs[k];
      assert SoundSubscription(sub);
      ReceiveIsSound(sub);
      hide Balanced;
      hide SoundSubscription;
      ReplaceKeepsBalance(s, k, sub.(queue := sub.queue[1..], received := sub.received + [sub.queue[0]]));
    }
  }

  lemma StepKeepsBalance(s: State, a: Action)
    requires Balanced(s)
    ensures Balanced(Step(s, a))
  {
    hide Balanced;
    match a {
      case Publish(m) => PublishKeepsBalance(s, m);
      case Visit(i, k) =>
        if Visitable(s, i, k) {
          VisitKeepsBalance(s, i, k);
        }
      case Unlock(i) =>
        if i < |s.publishers| && s.publishers[i].phase.Iterating? {
          PublisherKeepsBalance(s, i, s.publishers[i].(phase := Unlocked), s.dropCounter);
        }
      case CountDrops(i) =>
        if i < |s.publishers| && s.publishers[i].phase.Unlocked? {
          PublisherKeepsBalance(s, i, s.publishers[i].(phase := Counted), s.dropCounter + s.publishers[i].dropped);
        }
      case Subscribe(filter) => SubscribeKeepsBalance(s, filter);
      case Cancel(k) =>
        if k < |s.subs| && s.subs[k].live {
          CancelKeepsBalance(s, k);
        }
      case Stop =>
        if Writable(s) {
          StopKeepsBalance(s);
        }
      case Receive(k) => ReceiveKeepsBalance(s, k);
    }
  }

  lemma {:induction false} RunIsBalanced(actions: seq<Action>)
    ensures Balanced(Run(actions))
  {
    if actions != [] {
      RunIsBalanced(actions[..|actions| - 1]);
      StepKeepsBalance(Run(actions[..|actions| - 1]), actions[|actions| - 1]);
    }
  }

  /**
   However publishers, subscribers and shutdown interleave: each subscriber's received and queued messages are
   an in-order part of what was offered to it, which is what the publishers that visited it carried and its
   filter lets through; its queue stays within bounds; and it was closed once if it is gone, else never.
   */
  lemma FanoutIsFaithful(actions: seq<Action>, k: nat)
    requires k < |Run(actions).subs|
    ensures var s := Run(actions); var sub := s.subs[k];
      && IsSubsequence(sub.received + sub.queue, sub.offered)
      && multiset(sub.offered) == SeenAt(s.publishers, k, sub.filter)
      && |sub.queue| <= QUEUE_CAPACITY
      && sub.closes == (if sub.live then 0 else 1)
  {
    RunIsBalanced(actions);
    assert Run(actions).subs[k] in Run(actions).subs;
  }

  /**
   Once every publisher has counted, the drop counter is the number of messages missing over all subscriptions
   ever.
   */
  lemma DropsAreConserved(actions: seq<Action>)
    ensures var s := Run(actions);
      && SumBy(s.subs, MissedBy()) == s.dropCounter + SumBy(s.publishers, Uncounted())
      && ((forall p <- s.publishers :: p.phase.Counted?) ==> s.dropCounter == SumBy(s.subs, MissedBy()))
  {
    RunIsBalanced(actions);
    var s := Run(actions);
    if forall p <- s.publishers :: p.phase.Counted? {
      NothingUncounted(s.publishers);
    }
  }

  lemma {:induction false} NothingUncounted(publishers: seq<Publisher>)
    requires forall p <- publishers :: p.phase.Counted?
    ensures SumBy(publishers, Uncounted()) == 0
  {
    if publishers != [] {
      NothingUncounted(publishers[..|publishers| - 1]);
      assert publishers[|publishers| - 1] in publishers;
    }
  }

  // ---- Every publish reaches every live subscription ----

  ghost predicate Thorough(s: State)
  {
    forall p <- s.publishers :: p.visited <= p.scope && (!p.phase.Iterating? ==> p.visited == p.scope)
  }

  /** A publisher that has released the lock has tried every subscription that was live when it took it. */
  lemma {:induction false} PublishersVisitTheirScope(actions: seq<Action>)
    ensures Thorough(Run(actions))
  {
    if actions != [] {
      var s, after := Run(actions[..|actions| - 1]), Run(actions);
      PublishersVisitTheirScope(actions[..|actions| - 1]);
      forall p <- after.publishers ensures p.visited <= p.scope && (!p.phase.Iterating? ==> p.visited == p.scope) {
        var i :| 0 <= i < |after.publishers| && after.publishers[i] == p;
        if i < |s.publishers| { assert s.publishers[i] in s.publishers; }
      }
    }
  }

  // ---- Publishers one after another ----

  /** No publish starts while another one is iterating. */
  ghost predicate OneAtATime(actions: seq<Action>)
  {
    actions != [] ==>
      var n := |actions| - 1;
      OneAtATime(actions[..n]) && (actions[n].Publish? ==> Writable(Run(actions[..n])))
  }

  /**
   Only the last publisher may be iterating, and each subscription was offered what publishers carried, in
   their order.
   */
  ghost predicate InOrder(s: State)
  {
    && (forall i :: 0 <= i < |s.publishers| - 1 ==> !s.publishers[i].phase.Iterating?)
    && (forall k :: 0 <= k < |s.subs| ==> s.subs[k].offered == Seen(s.publishers, k, s.subs[k].filter))
  }

  lemma {:induction false} SeenIgnoresPhase(publishers: seq<Publisher>, i: nat, q: Publisher, k: nat,
                                            filter: set<string>)
    requires i < |publishers| && q.message == publishers[i].message && q.visited == publishers[i].visited
    ensures Seen(publishers[i := q], k, filter) == Seen(publishers, k, filter)
  {
    var n := |publishers| - 1;
    if i == n {
      assert publishers[i := q][..n] == publishers[..n];
    } else {
      assert publishers[i := q][..n] == publishers[..n][i := q];
      SeenIgnoresPhase(publishers[..n], i, q, k, filter);
    }
  }

  lemma VisitKeepsOrder(s: State, i: nat, k: nat)
    requires InOrder(s) && Visitable(s, i, k)
    ensures InOrder(Step(s, Visit(i, k)))
  {
    var after := Step(s, Visit(i, k));
    var n := |s.publishers| - 1;
    assert i == n;
    assert after.publishers[..n] == s.publishers[..n];
  }

  lemma PhaseKeepsOrder(s: State, i: nat, phase: Phase, counter: nat)
    requires InOrder(s) && i < |s.publishers| && !phase.Iterating?
    ensures InOrder(s.(publishers := s.publishers[i := s.publishers[i].(phase := phase)], dropCounter := counter))
  {
    forall k | 0 <= k < |s.subs|
      ensures s.subs[k].offered == Seen(s.publishers[i := s.publishers[i].(phase := phase)], k, s.subs[k].filter) {
      SeenIgnoresPhase(s.publishers, i, s.publishers[i].(phase := phase), k, s.subs[k].filter);
    }
  }

  lemma PublishKeepsOrder(s: State, m: Inbound)
    requires InOrder(s) && Writable(s)
    ensures InOrder(Step(s, Publish(m)))
  {
    var after := Step(s, Publish(m));
    assert after.publishers[..|s.publishers|] == s.publishers;
    forall i | 0 <= i < |s.publishers| ensures !after.publishers[i].phase.Iterating? {
      assert s.publishers[i] in s.publishers;
    }
  }

  lemma SubsKeepOrder(s: State, subs: seq<Subscription>)
    requires InOrder(s) && |subs| == |s.subs|
    requires forall k :: 0 <= k < |subs| ==> subs[k].offered == s.subs[k].offered && subs[k].filter == s.subs[k].filter
    ensures InOrder(s.(subs := subs))
  {
  }

  lemma SubscribeKeepsOrder(s: State, filter: set<string>)
    requires InOrder(s) && forall p <- s.publishers :: |s.subs| !in p.visited
    ensures InOrder(s.(subs := s.subs + [NewSubscription(filter)]))
  {
    NobodyVisited(s.publishers, |s.subs|, filter);
  }

  lemma StepKeepsOrder(s: State, a: Action)
    requires InOrder(s) && (forall p <- s.publishers :: |s.subs| !in p.visited) && (a.Publish? ==> Writable(s))
    ensures InOrder(Step(s, a))
  {
    match a {
      case Publish(m) => PublishKeepsOrder(s, m);
      case Visit(i, k) => if Visitable(s, i, k) { VisitKeepsOrder(s, i, k); }
      case Unlock(i) => if i < |s.publishers| { PhaseKeepsOrder(s, i, Unlocked, s.dropCounter); }
      case CountDrops(i) =>
        if i < |s.publishers| { PhaseKeepsOrder(s, i, Counted, s.dropCounter + s.publishers[i].dropped); }
      case Subscribe(filter) => SubscribeKeepsOrder(s, filter);
      case _ => SubsKeepOrder(s, Step(s, a).subs);
    }
  }

  /** When publishes do not overlap, what a subscriber has received and queued is in the order they were published. */
  lemma {:induction false} FanoutKeepsOrder(actions: seq<Action>)
    requires OneAtATime(actions)
    ensures InOrder(Run(actions))
  {
    if actions != [] {
      var n := |actions| - 1;
      FanoutKeepsOrder(actions[..n]);
      RunIsBalanced(actions[..n]);
      StepKeepsOrder(Run(actions[..n]), actions[n]);
    }
  }

  // ---- The runtime's methods ----

  /** Every subscription outside remaining has been offered m once; the others are untouched. */
  ghost predicate OfferedExcept(before: map<nat, Subscription>, after: map<nat, Subscription>, remaining: set<nat>,
                                m: Inbound)
  {
    && after.Keys == before.Keys
    && forall id <- before :: after[id] == if id in remaining then before[id] else Offered(before[id], m)
  }

  ghost function Dropping(subs: map<nat, Subscription>, m: Inbound): set<nat>
  {
    set id | id in subs && Drops(subs[id], m)
  }

  lemma OneMoreOffered(before: map<nat, Subscription>, now: map<nat, Subscription>, remaining: set<nat>, id: nat,
                       m: Inbound)
    requires id in remaining && remaining <= before.Keys && OfferedExcept(before, now, remaining, m)
    ensures now[id] == before[id] && OfferedExcept(before, now[id := Offered(now[id], m)], remaining - {id}, m)
    ensures |Dropping(before, m) - (remaining - {id})|
            == |Dropping(before, m) - remaining| + (if Drops(now[id], m) then 1 else 0)
  {
    hide Offered;
    var done := Dropping(before, m) - remaining;
    assert id !in done;
    assert Dropping(before, m) - (remaining - {id}) == done + (if Drops(now[id], m) then {id} else {});
  }

  /** The subscriptions gone from before are closed in retired, and nothing else is new there. */
  ghost predicate ClosedSince(before: map<nat, Subscription>, now: map<nat, Subscription>,
                              gone: map<nat, Subscription>, retired: map<nat, Subscription>)
  {
    && now.Keys <= before.Keys && (forall id <- now :: now[id] == before[id])
    && retired.Keys == gone.Keys + (before.Keys - now.Keys)
    && (forall id <- retired :: id in before && id !in now ==> retired[id] == Closed(before[id]))
    && (forall id <- gone :: id !in before ==> retired[id] == gone[id])
  }

  lemma OneMoreClosed(before: map<nat, Subscription>, now: map<nat, Subscription>,
                      gone: map<nat, Subscription>, retired: map<nat, Subscription>, id: nat)
    requires ClosedSince(before, now, gone, retired) && id in now
    ensures ClosedSince(before, now - {id}, gone, retired[id := Closed(now[id])])
  {
  }

  class Repository {
    var nextID: nat
    var subs: map<nat, Subscription>
    var retired: map<nat, Subscription>
    var inboundDropped: nat

    ghost predicate Valid()
      reads this
    {
      && (forall id <- subs :: id <= nextID && subs[id].live && |subs[id].queue| <= QUEUE_CAPACITY)
      && (forall id <- retired :: id <= nextID && id !in subs && !retired[id].live)
    }

    constructor ()
      ensures Valid() && subs == map[] && inboundDropped == 0
    {
      nextID, subs, retired, inboundDropped := 0, map[], map[], 0;
    }

    /** The non-blocking send to one subscription. */
    method TryEnqueue(id: nat, m: Inbound) returns (dropped: bool)
      requires Valid() && id in subs
      modifies this`subs
      ensures Valid() && subs == old(subs)[id := Offered(old(subs)[id], m)]
      ensures dropped == Drops(old(subs)[id], m)
    {
      var sub := subs[id];
      dropped := false;
      if sub.filter == {} || m.channelID in sub.filter {
        if |sub.queue| < QUEUE_CAPACITY {
          sub := sub.(queue := sub.queue + [m], offered := sub.offered + [m]);
        } else {
          sub := sub.(offered := sub.offered + [m]);
          dropped := true;
        }
      }
      subs := subs[id := sub];
    }

    /** The loop over the subscriptions, in any order. */
    method OfferToAll(m: Inbound) returns (dropped: nat)
      requires Valid()
      modifies this`subs
      ensures Valid() && OfferedExcept(old(subs), subs, {}, m)
      ensures dropped == |Dropping(old(subs), m)|
    {
      ghost var before := subs;
      var remaining := subs.Keys;
      dropped := 0;
      while remaining != {}
        invariant Valid()
        invariant remaining <= before.Keys && OfferedExcept(before, subs, remaining, m)
        invariant dropped == |Dropping(before, m) - remaining|
        decreases remaining
      {
        var id :| id in remaining;
        OneMoreOffered(before, subs, remaining, id, m);
        hide Offered;
        hide Dropping;
        hide Drops;
        var full := TryEnqueue(id, m);
        remaining := remaining - {id};
        if full {
          dropped := dropped + 1;
        }
      }
      assert Dropping(before, m) - {} == Dropping(before, m);
    }

    /** One publish that nothing interleaves: every live subscription is tried once, and the drops are counted. */
    method Publish(m: Inbound)
      requires Valid()
      modifies this`subs, this`inboundDropped
      ensures Valid() && OfferedExcept(old(subs), subs, {}, m)
      ensures inboundDropped == old(inboundDropped) + |Dropping(old(subs), m)|
    {
      var dropped := OfferToAll(m);
      if dropped > 0 {
        inboundDropped := inboundDropped + dropped;
      }
    }

    method Subscribe(filter: set<string>) returns (id: nat)
      requires Valid()
      modifies this`nextID, this`subs
      ensures Valid()
      ensures id == old(nextID) + 1 == nextID && id !in old(subs) && id !in retired
      ensures subs == old(subs)[id := NewSubscription(filter)]
    {
      nextID := nextID + 1;
      id := nextID;
      subs := subs[id := NewSubscription(filter)];
    }

    /** The cancel closure: the first call closes the subscription, later ones find nothing. */
    method Cancel(id: nat)
      requires Valid()
      modifies this`subs, this`retired
      ensures Valid()
      ensures subs == old(subs) - {id}
      ensures retired == if id in old(subs) then old(retired)[id := Closed(old(subs)[id])] else old(retired)
    {
      if id in subs {
        retired := retired[id := Closed(subs[id])];
        subs := subs - {id};
      }
    }

    /** Shutdown closes every subscription that is still there, once each. */
    method Stop()
      requires Valid()
      modifies this`subs, this`retired
      ensures Valid()
      ensures subs == map[] && ClosedSince(old(subs), map[], old(retired), retired)
    {
      ghost var before, gone := subs, retired;
      while subs != map[]
        invariant Valid() && ClosedSince(before, subs, gone, retired)
        decreases |subs|
      {
        assert subs.Keys != {};
        var id :| id in subs;
        OneMoreClosed(before, subs, gone, retired, id);
        Cancel(id);
      }
    }
  }
}
