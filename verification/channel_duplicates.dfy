/** Exactly when a message enqueued under a key can be enqueued again within the window of its reservation. */
module ChannelDuplicates {
  import opened Sequences
  import opened ChannelSplit
  import opened ChannelWorker
  import opened ChannelSend
  import opened ChannelRuns

  /** A later send of p's slot was enqueued, reserved within the window of p. */
  ghost predicate Duplicated(s: State, p: nat)
    requires p < |s.senders|
  {
    exists q :: p < q < |s.senders| && Duplicates(s, p, q)
  }

  predicate Duplicates(s: State, p: nat, q: nat)
    requires p < |s.senders| && q < |s.senders|
  {
    SameSlot(s, p, q) && s.senders[q].phase == Enqueued && s.senders[q].at - s.senders[p].at <= WINDOW
  }

  /** Send o, of the slot of p, may yet delete the slot's reservation. */
  predicate Threatens(s: State, o: nat, p: nat)
    requires p < |s.senders| && o < |s.senders|
  {
    o != p && SameSlot(s, o, p) && s.senders[o].phase in {Pending, Rejected}
  }

  /** The reservation of p was deleted, or another send of its slot is not over. */
  ghost predicate Exposed(s: State, p: nat)
    requires p < |s.senders|
  {
    p in s.robbed || exists o :: 0 <= o < |s.senders| && Threatens(s, o, p)
  }

  // ---- What the proof needs of every reachable state ----

  /** A slot's owner is its latest send, a robbed or undone send owns nothing, and the message may be sent again. */
  predicate RankedSend(s: State, p: nat)
    requires p < |s.senders|
  {
    var t := s.senders[p];
    var slot := SlotOf(t.message);
    && (Keyed(t) ==> slot in s.owners && p <= s.owners[slot] < |s.senders|)
    && (Keyed(t) && (t.phase == Undone || p in s.robbed) ==> !Owns(s, p))
    && Refusal(s.store, t.message, true).None?
  }

  ghost predicate Ranked(s: State)
  {
    && (forall p :: 0 <= p < |s.senders| ==> RankedSend(s, p))
    && (forall p <- s.robbed :: p < |s.senders|)
  }

  lemma QuietIsRanked(s: State, after: State)
    requires Ranked(s) && after.senders == s.senders && after.owners == s.owners && after.robbed == s.robbed
    requires after.store.channels == s.store.channels
    requires forall slot <- after.store.idempotency :: slot in s.store.idempotency
    ensures Ranked(after)
  {
    forall p | 0 <= p < |s.senders| ensures RankedSend(after, p) {
      assert RankedSend(s, p);
    }
  }

  lemma BegunIsRanked(s: State, at: int, m: Outbound)
    requires Ranked(s) && Refusal(s.store, m, true).None?
    ensures Ranked(Begun(s, at, m))
  {
    var after, n := Begun(s, at, m), |s.senders|;
    forall p | 0 <= p < |after.senders| ensures RankedSend(after, p) {
      if p < n {
        BegunRanksEarlier(s, at, m, p);
      } else {
        assert n !in s.robbed;
      }
    }
  }

  lemma BegunRanksEarlier(s: State, at: int, m: Outbound, p: nat)
    requires p < |s.senders| && RankedSend(s, p)
    ensures RankedSend(Begun(s, at, m), p)
  {
    assert Begun(s, at, m).senders[p] == s.senders[p];
  }

  lemma RollbackIsRanked(s: State, i: nat)
    requires Ranked(s) && Owned(s) && i < |s.senders|
    ensures Ranked(RollbackStep(s, i))
  {
    var after := RollbackStep(s, i);
    forall p | 0 <= p < |after.senders| ensures RankedSend(after, p) {
      assert RankedSend(s, p);
      RollbackRanks(s, i, p);
    }
  }

  lemma RollbackRanks(s: State, i: nat, p: nat)
    requires p < |s.senders| && RankedSend(s, p) && Owned(s) && i < |s.senders|
    ensures RankedSend(RollbackStep(s, i), p)
  {
    assert RollbackStep(s, i).senders[p].message == s.senders[p].message;
  }

  lemma OfferIsRanked(s: State, i: nat)
    requires Ranked(s) && i < |s.senders| && s.senders[i].phase == Pending
    ensures Ranked(OfferStep(s, i))
  {
    var after := OfferStep(s, i);
    assert after.store.channels == s.store.channels && after.store.idempotency == s.store.idempotency;
    hide Place;
    forall p | 0 <= p < |after.senders| ensures RankedSend(after, p) {
      assert RankedSend(s, p);
    }
  }

  lemma StepIsRanked(s: State, a: Action)
    requires Ranked(s) && Owned(s)
    ensures Ranked(Step(s, a))
  {
    hide Ranked;
    hide Owned;
    match a {
      case Begin(at, request, authorized, generated) =>
        BeginIsRanked(s, a);
      case Offer(i) =>
        if i < |s.senders| && s.senders[i].phase == Pending { OfferIsRanked(s, i); }
      case Rollback(i) =>
        if i < |s.senders| && s.senders[i].phase == Rejected { RollbackIsRanked(s, i); }
      case _ =>
        QuietIsRanked(s, Step(s, a));
    }
  }

  lemma BeginIsRanked(s: State, a: Action)
    requires Ranked(s) && Owned(s) && a.Begin?
    ensures Ranked(Step(s, a))
  {
    var m := Named(a.request, a.generated);
    if a.at >= s.clock && Refusal(s.store, a.request, a.authorized).None?
       && !(KeyOf(m) != "" && Live(s.store, SlotOf(m), a.at)) {
      assert Step(s, a) == Begun(s, a.at, m);
      BegunIsRanked(s, a.at, m);
    } else {
      QuietIsRanked(s, Step(s, a));
    }
  }

  lemma {:induction false} RunIsRanked(channels: map<string, bool>, start: int, actions: seq<Action>)
    ensures Ranked(Run(Initial(channels, start), actions))
  {
    if actions != [] {
      var n := |actions| - 1;
      RunIsRanked(channels, start, actions[..n]);
      RunIsKept(channels, start, actions[..n]);
      hide Step;
      hide Ranked;
      hide Told;
      StepIsRanked(Run(Initial(channels, start), actions[..n]), actions[n]);
    }
  }

  // ---- An exposed message can be enqueued again ----

  lemma {:induction false} RunsCompose(s: State, actions: seq<Action>, more: seq<Action>)
    ensures Run(s, actions + more) == Run(Run(s, actions), more)
  {
    if more == [] {
      assert actions + more == actions;
    } else {
      var n := |more| - 1;
      RunsCompose(s, actions, more[..n]);
      assert (actions + more)[..|actions| + n] == actions + more[..n];
    }
  }

  /** p is enqueued, its window is not over, and the state is one that runs reach. */
  ghost predicate Current(s: State, p: nat)
  {
    && Kept(s) && Ranked(s)
    && p < |s.senders| && Keyed(s.senders[p]) && s.senders[p].phase == Enqueued
    && s.clock - s.senders[p].at <= WINDOW
  }

  lemma StepIsCurrent(s: State, a: Action, p: nat)
    requires Current(s, p) && (a.Offer? || a.Rollback? || a.StartWorker? || a.StopWorker?)
    ensures Current(Step(s, a), p) && Step(s, a).senders[p] == s.senders[p]
  {
    StepIsRanked(s, a);
    StepKeeps(s, a);
    hide Kept;
    hide Ranked;
    hide Place;
  }

  lemma RunsOne(s: State, a: Action)
    ensures Run(s, [a]) == Step(s, a)
  {
    assert [a][..0] == [];
  }

  /** Its slot being free, p's request is taken again and enqueued on a new worker. */
  lemma FreeSlotDuplicates(s: State, p: nat) returns (more: seq<Action>)
    requires Current(s, p) && SlotOf(s.senders[p].message) !in s.store.idempotency
    ensures p < |Run(s, more).senders| && Duplicated(Run(s, more), p)
  {
    var m, n := s.senders[p].message, |s.senders|;
    assert RankedSend(s, p);
    var begin := Begin(s.clock, m, true, "");
    assert Step(s, begin) == Begun(s, s.clock, m);
    var begun := Begun(s, s.clock, m);
    hide Kept;
    hide Ranked;
    OfferToNewWorkerDuplicates(begun, p, n);
    more := [begin] + [StartWorker(m.channelID, 1)] + [Offer(n)];
    RunsOne(s, begin);
    RunsCompose(s, [begin], [StartWorker(m.channelID, 1)]);
    RunsOne(begun, StartWorker(m.channelID, 1));
    RunsCompose(s, [begin] + [StartWorker(m.channelID, 1)], [Offer(n)]);
    RunsOne(Step(begun, StartWorker(m.channelID, 1)), Offer(n));
  }

  lemma OfferToNewWorkerDuplicates(s: State, p: nat, q: nat)
    requires p < q < |s.senders| && SameSlot(s, p, q) && s.senders[q].phase == Pending
    requires s.senders[q].at - s.senders[p].at <= WINDOW
    ensures var after := Step(Step(s, StartWorker(s.senders[q].message.channelID, 1)), Offer(q));
      p < |after.senders| && Duplicated(after, p)
  {
    var after := Step(Step(s, StartWorker(s.senders[q].message.channelID, 1)), Offer(q));
    assert Duplicates(after, p, q);
  }

  /** Robbed, p has lost its slot to nobody or to a later send. */
  lemma RobbedCanDuplicate(s: State, p: nat) returns (more: seq<Action>)
    requires Current(s, p) && p in s.robbed
    ensures p < |Run(s, more).senders| && Duplicated(Run(s, more), p)
  {
    var slot := SlotOf(s.senders[p].message);
    if slot !in s.store.idempotency {
      more := FreeSlotDuplicates(s, p);
    } else {
      var q := s.owners[slot];
      assert RankedSend(s, p);
      var t := s.senders[q];
      assert RankedSend(s, q);
      assert p < q && SameSlot(s, p, q) && t.at <= s.clock && t.phase != Undone;
      if t.phase == Enqueued {
        assert Duplicates(s, p, q);
        more := [];
      } else if t.phase == Pending {
        var start := StartWorker(t.message.channelID, 1);
        OfferToNewWorkerDuplicates(s, p, q);
        more := [start] + [Offer(q)];
        RunsCompose(s, [start], [Offer(q)]);
        RunsOne(s, start);
        RunsOne(Step(s, start), Offer(q));
      } else {
        var undone := Step(s, Rollback(q));
        assert slot !in undone.store.idempotency;
        StepIsCurrent(s, Rollback(q), p);
        var rest := FreeSlotDuplicates(undone, p);
        more := [Rollback(q)] + rest;
        RunsCompose(s, [Rollback(q)], rest);
        RunsOne(s, Rollback(q));
      }
    }
  }

  /** Another send of the slot that is not over finds no worker, and its rollback deletes the reservation. */
  lemma ThreatenedCanDuplicate(s: State, p: nat, o: nat) returns (more: seq<Action>)
    requires Current(s, p) && o < |s.senders| && Threatens(s, o, p)
    ensures p < |Run(s, more).senders| && Duplicated(Run(s, more), p)
  {
    var stop := StopWorker(s.senders[o].message.channelID);
    var stopped := Step(s, stop);
    var offered := if s.senders[o].phase == Pending then Step(stopped, Offer(o)) else s;
    var undone := Step(offered, Rollback(o));
    more := if s.senders[o].phase == Pending then [stop] + [Offer(o)] else [];
    if s.senders[o].phase == Pending {
      StepIsCurrent(s, stop, p);
      StepIsCurrent(stopped, Offer(o), p);
      RunsCompose(s, [stop], [Offer(o)]);
      RunsOne(s, stop);
      RunsOne(stopped, Offer(o));
    }
    assert offered.senders[o].phase == Rejected && offered.senders[o].message == s.senders[o].message;
    assert SlotOf(s.senders[p].message) !in undone.store.idempotency;
    StepIsCurrent(offered, Rollback(o), p);
    hide Step;
    var rest := FreeSlotDuplicates(undone, p);
    RunsOne(offered, Rollback(o));
    RunsCompose(s, more, [Rollback(o)]);
    RunsCompose(s, more + [Rollback(o)], rest);
    more := more + [Rollback(o)] + rest;
  }

  // ---- A message that is not exposed stays alone ----

  /** p has no later send of its slot within its window, and while that lasts nothing threatens its reservation. */
  ghost predicate Alone(s: State, p: nat)
  {
    && p < |s.senders| && Keyed(s.senders[p]) && s.senders[p].phase == Enqueued
    && (s.clock - s.senders[p].at <= WINDOW ==> !Exposed(s, p))
    && forall q :: p < q < |s.senders| && SameSlot(s, p, q) ==> s.senders[q].at - s.senders[p].at > WINDOW
  }

  lemma AloneOwns(s: State, p: nat)
    requires Kept(s) && Alone(s, p) && s.clock - s.senders[p].at <= WINDOW
    ensures Owns(s, p)
  {
    assert Protected(s, p);
  }

  /** Sends and what threatens p are as before. */
  lemma QuietLeavesAlone(s: State, after: State, p: nat)
    requires Alone(s, p) && after.clock >= s.clock && after.senders == s.senders && after.robbed == s.robbed
    ensures Alone(after, p)
  {
    hide Keyed;
    hide SlotOf;
    assert forall o :: 0 <= o < |s.senders| && Threatens(after, o, p) ==> Threatens(s, o, p);
    assert forall q :: p < q < |s.senders| && SameSlot(after, p, q) ==> SameSlot(s, p, q);
  }

  /** Within the window of p its slot is live, so that a new send is of another slot. */
  lemma BegunLeavesAlone(s: State, at: int, m: Outbound, p: nat)
    requires Kept(s) && Alone(s, p) && at >= s.clock && (KeyOf(m) != "" ==> !Live(s.store, SlotOf(m), at))
    ensures Alone(Begun(s, at, m), p)
  {
    var after, n := Begun(s, at, m), |s.senders|;
    var t := s.senders[p];
    if at - t.at <= WINDOW {
      AloneOwns(s, p);
      assert Live(s.store, SlotOf(t.message), at);
    }
    assert SameSlot(after, p, n) ==> at - t.at > WINDOW;
    assert forall q :: 0 <= q < n ==> after.senders[q] == s.senders[q];
    hide Kept;
    hide Keyed;
    hide SlotOf;
    assert forall o :: 0 <= o < n && Threatens(after, o, p) ==> Threatens(s, o, p);
    assert forall q :: p < q < n && SameSlot(after, p, q) ==> SameSlot(s, p, q);
  }

  /** One send's phase moves on. */
  lemma PhaseLeavesAlone(s: State, after: State, p: nat, i: nat)
    requires Kept(s) && Alone(s, p) && i < |s.senders| && s.senders[i].phase in {Pending, Rejected}
    requires after.clock == s.clock && |after.senders| == |s.senders|
    requires forall q :: 0 <= q < |s.senders| ==>
      after.senders[q] == if q == i then s.senders[q].(phase := after.senders[q].phase) else s.senders[q]
    requires s.clock - s.senders[p].at <= WINDOW ==> p !in after.robbed
    ensures Alone(after, p)
  {
    hide Kept;
    hide KeyOf;
    hide SlotOf;
    assert forall o :: 0 <= o < |s.senders| && Threatens(after, o, p) ==> Threatens(s, o, p);
    assert forall q :: p < q < |s.senders| && SameSlot(after, p, q) ==> SameSlot(s, p, q);
  }

  lemma RollbackSparesAlone(s: State, i: nat, p: nat)
    requires Kept(s) && Alone(s, p) && i < |s.senders| && s.senders[i].phase == Rejected
    requires s.clock - s.senders[p].at <= WINDOW
    ensures p !in RollbackStep(s, i).robbed
  {
    assert !Threatens(s, i, p);
  }

  lemma StepLeavesAlone(s: State, a: Action, p: nat)
    requires Kept(s) && Alone(s, p)
    ensures Alone(Step(s, a), p)
  {
    match a {
      case Begin(at, request, authorized, generated) =>
        BeginLeavesAlone(s, a, p);
      case Offer(i) =>
        if i < |s.senders| && s.senders[i].phase == Pending {
          hide Place;
          PhaseLeavesAlone(s, Step(s, a), p, i);
        }
      case Rollback(i) =>
        if i < |s.senders| && s.senders[i].phase == Rejected {
          if s.clock - s.senders[p].at <= WINDOW {
            RollbackSparesAlone(s, i, p);
          }
          PhaseLeavesAlone(s, Step(s, a), p, i);
        }
      case _ =>
        hide Alone;
        QuietLeavesAlone(s, Step(s, a), p);
    }
  }

  lemma BeginLeavesAlone(s: State, a: Action, p: nat)
    requires Kept(s) && Alone(s, p) && a.Begin?
    ensures Alone(Step(s, a), p)
  {
    var m := Named(a.request, a.generated);
    assert Owned(s);
    hide Kept;
    hide Alone;
    if a.at >= s.clock && Refusal(s.store, a.request, a.authorized).None?
       && !(KeyOf(m) != "" && Live(s.store, SlotOf(m), a.at)) {
      assert Step(s, a) == Begun(s, a.at, m);
      BegunLeavesAlone(s, a.at, m, p);
    } else {
      QuietLeavesAlone(s, Step(s, a), p);
    }
  }

  lemma {:induction false} RunLeavesAlone(channels: map<string, bool>, start: int, actions: seq<Action>,
                                          more: seq<Action>, p: nat)
    requires Alone(Run(Initial(channels, start), actions), p)
    ensures Alone(Run(Initial(channels, start), actions + more), p)
  {
    hide Run;
    hide Step;
    hide Alone;
    hide Told;
    hide Kept;
    if more == [] {
      assert actions + more == actions;
    } else {
      var n := |more| - 1;
      RunLeavesAlone(channels, start, actions, more[..n], p);
      RunIsKept(channels, start, actions + more[..n]);
      StepLeavesAlone(Run(Initial(channels, start), actions + more[..n]), more[n], p);
      RunAppend(Initial(channels, start), actions + more[..n], more[n]);
      assert actions + more == actions + more[..n] + [more[n]];
    }
  }

  /** However the run goes on, p's slot is not enqueued again within the window of p. */
  ghost predicate NeverDuplicated(channels: map<string, bool>, start: int, actions: seq<Action>, p: nat)
  {
    forall more: seq<Action> ::
      var after := Run(Initial(channels, start), actions + more);
      p < |after.senders| ==> !Duplicated(after, p)
  }

  lemma ExposedCanDuplicate(channels: map<string, bool>, start: int, actions: seq<Action>, p: nat)
    requires Current(Run(Initial(channels, start), actions), p) && Exposed(Run(Initial(channels, start), actions), p)
    ensures !NeverDuplicated(channels, start, actions, p)
  {
    var s := Run(Initial(channels, start), actions);
    assert p < |s.senders|;
    hide Current;
    hide Duplicated;
    var more: seq<Action>;
    if p in s.robbed {
      more := RobbedCanDuplicate(s, p);
    } else {
      var o :| 0 <= o < |s.senders| && Threatens(s, o, p);
      more := ThreatenedCanDuplicate(s, p, o);
    }
    RunsCompose(Initial(channels, start), actions, more);
    hide Run;
    assert Duplicated(Run(Initial(channels, start), actions + more), p);
  }

  lemma UnexposedIsAlone(s: State, p: nat)
    requires Current(s, p) && !Exposed(s, p)
    ensures Alone(s, p)
  {
    assert forall q :: p < q < |s.senders| && SameSlot(s, p, q) ==> Apart(s, p, q);
  }

  lemma AloneIsNotDuplicated(s: State, p: nat)
    requires Alone(s, p)
    ensures !Duplicated(s, p)
  {
  }

  lemma AloneIsNeverDuplicated(channels: map<string, bool>, start: int, actions: seq<Action>, p: nat)
    requires Alone(Run(Initial(channels, start), actions), p)
    ensures NeverDuplicated(channels, start, actions, p)
  {
    forall more: seq<Action>
      ensures var after := Run(Initial(channels, start), actions + more);
        p < |after.senders| ==> !Duplicated(after, p)
    {
      RunLeavesAlone(channels, start, actions, more, p);
      hide Run;
      AloneIsNotDuplicated(Run(Initial(channels, start), actions + more), p);
    }
  }

  /**
   A keyed message in its window is never enqueued again, however the run goes on, if and only if its
   reservation was not deleted and every other send of its slot is over.
   */
  lemma NeverDuplicatedIff(channels: map<string, bool>, start: int, actions: seq<Action>, p: nat)
    requires var s := Run(Initial(channels, start), actions);
      && p < |s.senders| && Keyed(s.senders[p]) && s.senders[p].phase == Enqueued
      && s.clock - s.senders[p].at <= WINDOW
    ensures NeverDuplicated(channels, start, actions, p) <==> !Exposed(Run(Initial(channels, start), actions), p)
  {
    var s := Run(Initial(channels, start), actions);
    RunIsKept(channels, start, actions);
    RunIsRanked(channels, start, actions);
    assert Current(s, p);
    hide Current;
    hide Kept;
    hide Ranked;
    hide Told;
    hide Duplicated;
    hide NeverDuplicated;
    if Exposed(s, p) {
      ExposedCanDuplicate(channels, start, actions, p);
    } else {
      hide Exposed;
      UnexposedIsAlone(s, p);
      AloneIsNeverDuplicated(channels, start, actions, p);
    }
  }
}
