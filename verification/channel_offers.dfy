/** Who is offered what: the fan-out in terms of the messages published and the filters subscribed with. */
module ChannelOffers {
  import opened Sequences
  import opened ChannelFanout

  /** A subscription without channels wants every message, another one those of its channels. */
  predicate IsWanted(filter: set<string>, m: Inbound)
  {
    filter == {} || m.channelID in filter
  }

  /** The publisher has tried the subscription with this message. */
  function Tried(k: nat, m: Inbound): Publisher -> bool
  {
    (p: Publisher) => k in p.visited && p.message == m
  }

  lemma {:induction false} SeenCounts(publishers: seq<Publisher>, k: nat, filter: set<string>, m: Inbound)
    ensures SeenAt(publishers, k, filter)[m] == if IsWanted(filter, m) then CountIf(publishers, Tried(k, m)) else 0
  {
    if publishers != [] {
      SeenCounts(publishers[..|publishers| - 1], k, filter, m);
    }
  }

  /**
   In every interleaving a subscription was offered a message exactly as often as publishers of that message visited
   it, when its filter wants the message, and never otherwise.
   */
  lemma OffersAreWanted(actions: seq<Action>, k: nat, m: Inbound)
    requires k < |Run(actions).subs|
    ensures var s := Run(actions); var sub := s.subs[k];
      multiset(sub.offered)[m] == if IsWanted(sub.filter, m) then CountIf(s.publishers, Tried(k, m)) else 0
  {
    var s := Run(actions);
    FanoutIsFaithful(actions, k);
    hide Run;
    SeenCounts(s.publishers, k, s.subs[k].filter, m);
  }

  /** A visit queues a wanted message last, or drops it when 64 are waiting; it passes over an unwanted one. */
  lemma VisitTells(s: State, i: nat, k: nat)
    requires Visitable(s, i, k)
    ensures var p, sub, after := s.publishers[i], s.subs[k], Step(s, Visit(i, k));
      var fits := |sub.queue| < 64;
      && |after.subs| == |s.subs| && (forall j :: 0 <= j < |s.subs| && j != k ==> after.subs[j] == s.subs[j])
      && after.subs[k].queue
         == (if IsWanted(sub.filter, p.message) && fits then sub.queue + [p.message] else sub.queue)
      && after.publishers[i].dropped
         == p.dropped + (if IsWanted(sub.filter, p.message) && !fits then 1 else 0)
      && after.publishers[i].visited == p.visited + {k} && after.dropCounter == s.dropCounter
  {
  }

  // ---- Where publishers and subscriptions come from ----

  /** Publisher i carries the message of action p, and tries the subscriptions that were live then. */
  predicate PublishedAt(actions: seq<Action>, p: nat, i: nat, message: Inbound, scope: set<nat>)
    requires p < |actions|
  {
    var s := Run(actions[..p]);
    && actions[p] == Publish(message) && |s.publishers| == i
    && scope == set k | 0 <= k < |s.subs| && s.subs[k].live
  }

  /** Subscription k was made by action p, with its filter, while nobody was publishing. */
  predicate SubscribedAt(actions: seq<Action>, p: nat, k: nat, filter: set<string>)
    requires p < |actions|
  {
    var s := Run(actions[..p]);
    actions[p] == Subscribe(filter) && |s.subs| == k && forall q <- s.publishers :: !q.phase.Iterating?
  }

  /** A step keeps every publisher's message and scope and every subscription's filter, and adds at most one of each. */
  lemma StepKeepsPeople(s: State, a: Action)
    ensures var after := Step(s, a);
      && |s.publishers| <= |after.publishers| && |s.subs| <= |after.subs|
      && (forall i :: 0 <= i < |s.publishers| ==>
            && after.publishers[i].message == s.publishers[i].message
            && after.publishers[i].scope == s.publishers[i].scope)
      && (forall k :: 0 <= k < |s.subs| ==> after.subs[k].filter == s.subs[k].filter)
      && (|after.publishers| > |s.publishers| ==>
            && |after.publishers| == |s.publishers| + 1 && a.Publish?
            && after.publishers[|s.publishers|].message == a.message
            && after.publishers[|s.publishers|].scope == set k | 0 <= k < |s.subs| && s.subs[k].live)
      && (|after.subs| > |s.subs| ==>
            && |after.subs| == |s.subs| + 1 && a.Subscribe? && after.subs[|s.subs|].filter == a.filter
            && forall q <- s.publishers :: !q.phase.Iterating?)
  {
  }

  lemma {:induction false} PublishersWerePublished(actions: seq<Action>, i: nat)
    requires i < |Run(actions).publishers|
    ensures var p := Run(actions).publishers[i];
      exists at :: 0 <= at < |actions| && PublishedAt(actions, at, i, p.message, p.scope)
  {
    if actions != [] {
      var n := |actions| - 1;
      var s := Run(actions[..n]);
      var q := Run(actions).publishers[i];
      StepKeepsPeople(s, actions[n]);
      hide Step;
      if i < |s.publishers| {
        PublishersWerePublished(actions[..n], i);
        var at :| 0 <= at < n && PublishedAt(actions[..n], at, i, q.message, q.scope);
        assert actions[..n][..at] == actions[..at];
        assert PublishedAt(actions, at, i, q.message, q.scope);
      } else {
        assert PublishedAt(actions, n, i, q.message, q.scope);
      }
    }
  }

  lemma {:induction false} SubscriptionsWereMade(actions: seq<Action>, k: nat)
    requires k < |Run(actions).subs|
    ensures exists at :: 0 <= at < |actions| && SubscribedAt(actions, at, k, Run(actions).subs[k].filter)
  {
    if actions != [] {
      var n := |actions| - 1;
      var s := Run(actions[..n]);
      var filter := Run(actions).subs[k].filter;
      StepKeepsPeople(s, actions[n]);
      hide Step;
      if k < |s.subs| {
        SubscriptionsWereMade(actions[..n], k);
        var at :| 0 <= at < n && SubscribedAt(actions[..n], at, k, filter);
        assert actions[..n][..at] == actions[..at];
        assert SubscribedAt(actions, at, k, filter);
      } else {
        assert SubscribedAt(actions, n, k, filter);
      }
    }
  }
}
