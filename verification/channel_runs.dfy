/**
 Every interleaving of idempotent sends and the janitor.

 A send reserves its key in one critical section, tries its worker's queue in another, and deletes its
 reservation in a third when the queue refused it. Between these, anything else may happen. Time is a clock
 that never goes back.
 */
module ChannelRuns {
  import opened Sequences
  import opened ChannelSplit
  import opened ChannelWorker
  import opened ChannelSend

  datatype Phase = Pending | Enqueued | Rejected | Undone

  /** A send that found no live reservation, at the time it read the clock. */
  datatype Sender = Sender(message: Outbound, at: int, phase: Phase)

  /** What a keyed send was told: sent enqueued, or the id of an earlier send; seen counts the sends before it. */
  datatype Event =
    | Sent(slot: string, id: string, sender: nat)
    | Repeat(slot: string, id: string, at: int, sender: nat, seen: nat)

  /**
   owners says which send made a slot's reservation; robbed collects the sends whose reservation
   another send's rollback deleted.
   */
  datatype State = State(
    store: Store, clock: int, senders: seq<Sender>, owners: map<string, nat>, robbed: set<nat>, history: seq<Event>)

  datatype Action =
    | Begin(at: int, request: Outbound, authorized: bool, generated: string)
    | Offer(sender: nat)
    | Rollback(sender: nat)
    | Sweep(at: int)
    | Tick(at: int)
    | Take(channelID: string)                              // the worker takes the head of its queue
    | Update(id: string, status: DeliveryStatus)           // the worker records a delivery
    | StartWorker(channelID: string, capacity: nat)
    | StopWorker(channelID: string)

  predicate Keyed(t: Sender)
  {
    KeyOf(t.message) != ""
  }

  function Initial(channels: map<string, bool>, start: int): State
  {
    State(Store(channels, map[], map[], map[]), start, [], map[], {}, [])
  }

  /** The send's checks and its first critical section. */
  function BeginStep(s: State, at: int, request: Outbound, authorized: bool, generated: string): State
  {
    if Refusal(s.store, request, authorized).Some? then s.(clock := at)
    else
      var m, i := Named(request, generated), |s.senders|;
      if KeyOf(m) != "" && Live(s.store, SlotOf(m), at) && SlotOf(m) in s.owners then
        var id := s.store.idempotency[SlotOf(m)].messageID;
        s.(clock := at, history := s.history + [Repeat(SlotOf(m), id, at, s.owners[SlotOf(m)], i)])
      else
        s.(store := Reserve(s.store, m, at).0, clock := at, senders := s.senders + [Sender(m, at, Pending)],
           owners := if KeyOf(m) == "" then s.owners else s.owners[SlotOf(m) := i])
  }

  function OfferStep(s: State, i: nat): State
    requires i < |s.senders|
  {
    var t := s.senders[i];
    var (placed, receipt) := Place(s.store, t.message, t.at);
    s.(store := placed,
       senders := s.senders[i := t.(phase := if receipt.Accepted? then Enqueued else Rejected)],
       history := if receipt.Accepted? && Keyed(t)
                  then s.history + [Sent(SlotOf(t.message), t.message.id, i)] else s.history)
  }

  /** Deletes whatever reservation the slot has by now. */
  function RollbackStep(s: State, i: nat): State
    requires i < |s.senders|
  {
    var t := s.senders[i];
    var slot := SlotOf(t.message);
    s.(store := Unreserved(s.store, t.message),
       senders := s.senders[i := t.(phase := Undone)],
       robbed := if Keyed(t) && slot in s.store.idempotency && slot in s.owners && s.owners[slot] != i
                 then s.robbed + {s.owners[slot]} else s.robbed)
  }

  /** An action dated before the clock, or of a send in another phase, does not happen. */
  function Step(s: State, a: Action): State
  {
    match a
    case Begin(at, request, authorized, generated) =>
      if at < s.clock then s else BeginStep(s, at, request, authorized, generated)
    case Offer(i) => if i < |s.senders| && s.senders[i].phase == Pending then OfferStep(s, i) else s
    case Rollback(i) => if i < |s.senders| && s.senders[i].phase == Rejected then RollbackStep(s, i) else s
    case Sweep(at) => if at < s.clock then s else s.(store := Swept(s.store, at), clock := at)
    case Tick(at) => if at < s.clock then s else s.(clock := at)
    case Take(channelID) =>
      if channelID in s.store.queues && s.store.queues[channelID].items != [] then
        var q := s.store.queues[channelID];
        s.(store := s.store.(queues := s.store.queues[channelID := q.(items := q.items[1..])]))
      else s
    case Update(id, status) => s.(store := s.store.(deliveries := s.store.deliveries[id := status]))
    case StartWorker(channelID, capacity) =>
      s.(store := s.store.(queues := s.store.queues[channelID := Queue(capacity, [])]))
    case StopWorker(channelID) => s.(store := s.store.(queues := s.store.queues - {channelID}))
  }

  function Run(s: State, actions: seq<Action>): State
  {
    if actions == [] then s else Step(Run(s, actions[..|actions| - 1]), actions[|actions| - 1])
  }

  // ---- What every interleaving keeps ----

  /** Send p made the reservation that slot has. */
  predicate Owns(s: State, p: nat)
    requires p < |s.senders|
  {
    var slot := SlotOf(s.senders[p].message);
    slot in s.store.idempotency && slot in s.owners && s.owners[slot] == p
  }

  /** Every reservation is its owner's. */
  ghost predicate Owned(s: State)
  {
    forall slot <- s.store.idempotency ::
      && slot in s.owners && s.owners[slot] < |s.senders|
      && var t := s.senders[s.owners[slot]];
         Keyed(t) && SlotOf(t.message) == slot && s.store.idempotency[slot] == Reservation(t.message.id, t.at)
  }

  /** A send that is not rolled back has its reservation while the window lasts, unless it was robbed. */
  predicate Protected(s: State, p: nat)
    requires p < |s.senders|
  {
    Keyed(s.senders[p]) && s.senders[p].phase != Undone ==>
      Owns(s, p) || s.clock - s.senders[p].at > WINDOW || p in s.robbed
  }

  /** Later sends of the slot are beyond the window, unless p was robbed or rolled back. */
  predicate Apart(s: State, p: nat, q: nat)
    requires p < q < |s.senders|
  {
    var t, u := s.senders[p], s.senders[q];
    Keyed(t) && Keyed(u) && SlotOf(t.message) == SlotOf(u.message) && t.phase != Undone && p !in s.robbed ==>
      u.at - t.at > WINDOW
  }

  /** A repeat names the send that owned the slot, within the window of it. */
  predicate NamesOwner(s: State, r: Event)
    requires r.Repeat?
  {
    && r.sender < r.seen <= |s.senders|
    && var t := s.senders[r.sender];
       Keyed(t) && SlotOf(t.message) == r.slot && t.message.id == r.id && 0 <= r.at - t.at <= WINDOW
  }

  /** The repeat was told to a send that came after p, for its slot and within its window. */
  predicate Follows(s: State, r: Event, p: nat)
    requires p < |s.senders|
  {
    var t := s.senders[p];
    r.Repeat? && p < r.seen && Keyed(t) && SlotOf(t.message) == r.slot && r.at - t.at <= WINDOW
  }

  /** Such a send was told the id of p, unless p was robbed or rolled back. */
  predicate RepeatsOf(s: State, r: Event, p: nat)
    requires r.Repeat? && p < |s.senders|
  {
    Follows(s, r, p) && s.senders[p].phase != Undone && p !in s.robbed ==> r.sender == p
  }

  ghost predicate Kept(s: State)
  {
    && Owned(s)
    && (forall p :: 0 <= p < |s.senders| ==> s.senders[p].at <= s.clock && Protected(s, p))
    && (forall p, q :: 0 <= p < q < |s.senders| ==> Apart(s, p, q))
  }

  ghost predicate Told(s: State)
  {
    && (forall r <- s.history :: r.Repeat? ==> NamesOwner(s, r))
    && (forall r <- s.history, p | 0 <= p < |s.senders| && r.Repeat? :: RepeatsOf(s, r, p))
    && (forall e <- s.history :: e.Sent? ==> e.sender < |s.senders|)
    && (forall p :: 0 <= p < |s.senders| ==> (HasSent(s, p) <==> Keyed(s.senders[p]) && s.senders[p].phase == Enqueued))
  }

  ghost predicate HasSent(s: State, p: nat)
    requires p < |s.senders|
  {
    var t := s.senders[p];
    Sent(SlotOf(t.message), t.message.id, p) in s.history
  }

  /** Steps that touch neither the reservations nor the sends only let time pass. */
  lemma QuietKeeps(s: State, after: State)
    requires Kept(s) && after.clock >= s.clock && after.senders == s.senders && after.robbed == s.robbed
    requires after.store.idempotency == s.store.idempotency && after.owners == s.owners
    ensures Kept(after)
  {
    forall p | 0 <= p < |s.senders| ensures Protected(after, p) {
      assert Protected(s, p);
    }
    forall p, q | 0 <= p < q < |s.senders| ensures Apart(after, p, q) {
      assert Apart(s, p, q);
    }
  }

  lemma SweepKeeps(s: State, at: int)
    requires Kept(s) && at >= s.clock
    ensures Kept(s.(store := Swept(s.store, at), clock := at))
  {
    var after := s.(store := Swept(s.store, at), clock := at);
    forall p | 0 <= p < |s.senders| ensures Protected(after, p) {
      assert Protected(s, p);
    }
    forall p, q | 0 <= p < q < |s.senders| ensures Apart(after, p, q) {
      assert Apart(s, p, q);
    }
  }

  /** A key that is not live has no protected send within the window. */
  lemma NotLiveIsApart(s: State, p: nat, slot: string, at: int)
    requires Owned(s) && p < |s.senders| && Protected(s, p) && at >= s.clock && !Live(s.store, slot, at)
    requires Keyed(s.senders[p]) && SlotOf(s.senders[p].message) == slot
    requires s.senders[p].phase != Undone && p !in s.robbed
    ensures at - s.senders[p].at > WINDOW
  {
  }

  /** The state after a send without a live reservation has begun. */
  function Begun(s: State, at: int, m: Outbound): State
  {
    s.(store := Reserve(s.store, m, at).0, clock := at, senders := s.senders + [Sender(m, at, Pending)],
       owners := if KeyOf(m) == "" then s.owners else s.owners[SlotOf(m) := |s.senders|])
  }

  lemma BegunIsOwned(s: State, at: int, m: Outbound)
    requires Owned(s) && (KeyOf(m) != "" ==> !Live(s.store, SlotOf(m), at))
    ensures Owned(Begun(s, at, m))
  {
  }

  lemma BegunKeeps(s: State, at: int, m: Outbound)
    requires Kept(s) && at >= s.clock && (KeyOf(m) != "" ==> !Live(s.store, SlotOf(m), at))
    ensures Kept(Begun(s, at, m))
  {
    var after, n := Begun(s, at, m), |s.senders|;
    BegunIsOwned(s, at, m);
    assert forall p :: 0 <= p < n ==> after.senders[p] == s.senders[p];
    assert KeyOf(m) == "" ==> after.store.idempotency == s.store.idempotency;
    assert KeyOf(m) != "" ==> after.store.idempotency == s.store.idempotency[SlotOf(m) := Reservation(m.id, at)];
    forall p | 0 <= p < |after.senders| ensures Protected(after, p) {
      if p < n {
        BegunProtects(s, at, m, p);
      }
    }
    forall p, q | 0 <= p < q < |after.senders| ensures Apart(after, p, q) {
      if q < n {
        assert Apart(s, p, q);
      } else {
        BegunIsApart(s, at, m, p);
      }
    }
  }

  lemma BegunProtects(s: State, at: int, m: Outbound, p: nat)
    requires Owned(s) && at >= s.clock && (KeyOf(m) != "" ==> !Live(s.store, SlotOf(m), at))
    requires p < |s.senders| && Protected(s, p)
    ensures Protected(Begun(s, at, m), p)
  {
    var t := s.senders[p];
    if Keyed(t) && KeyOf(m) != "" && SlotOf(t.message) == SlotOf(m) && t.phase != Undone && p !in s.robbed {
      NotLiveIsApart(s, p, SlotOf(m), at);
    }
  }

  lemma BegunIsApart(s: State, at: int, m: Outbound, p: nat)
    requires Owned(s) && at >= s.clock && (KeyOf(m) != "" ==> !Live(s.store, SlotOf(m), at))
    requires p < |s.senders| && Protected(s, p)
    ensures Apart(Begun(s, at, m), p, |s.senders|)
  {
    var t := s.senders[p];
    if Keyed(t) && KeyOf(m) != "" && SlotOf(t.message) == SlotOf(m) && t.phase != Undone && p !in s.robbed {
      NotLiveIsApart(s, p, SlotOf(m), at);
    }
  }

  lemma BeginKeeps(s: State, a: Action)
    requires Kept(s) && a.Begin? && a.at >= s.clock
    ensures Kept(Step(s, a))
  {
    var m := Named(a.request, a.generated);
    if Refusal(s.store, a.request, a.authorized).Some? || (KeyOf(m) != "" && Live(s.store, SlotOf(m), a.at)) {
      QuietKeeps(s, Step(s, a));
    } else {
      assert Step(s, a) == Begun(s, a.at, m);
      BegunKeeps(s, a.at, m);
    }
  }

  lemma OfferKeeps(s: State, i: nat)
    requires Kept(s) && i < |s.senders| && s.senders[i].phase == Pending
    ensures Kept(OfferStep(s, i))
  {
    var after := OfferStep(s, i);
    assert after.store.idempotency == s.store.idempotency;
    hide Place;
    forall p | 0 <= p < |s.senders| ensures Protected(after, p) {
      assert Protected(s, p);
    }
    forall p, q | 0 <= p < q < |s.senders| ensures Apart(after, p, q) {
      assert Apart(s, p, q);
    }
  }

  lemma RollbackKeeps(s: State, i: nat)
    requires Kept(s) && i < |s.senders| && s.senders[i].phase == Rejected
    ensures Kept(RollbackStep(s, i))
  {
    var after := RollbackStep(s, i);
    forall p | 0 <= p < |s.senders| ensures Protected(after, p) {
      assert Protected(s, p);
    }
    forall p, q | 0 <= p < q < |s.senders| ensures Apart(after, p, q) {
      assert Apart(s, p, q);
    }
  }

  lemma StepKeeps(s: State, a: Action)
    requires Kept(s)
    ensures Kept(Step(s, a))
  {
    hide Kept;
    match a {
      case Begin(at, _, _, _) =>
        if at >= s.clock {
          BeginKeeps(s, a);
        }
      case Offer(i) =>
        if i < |s.senders| && s.senders[i].phase == Pending {
          OfferKeeps(s, i);
        }
      case Rollback(i) =>
        if i < |s.senders| && s.senders[i].phase == Rejected {
          RollbackKeeps(s, i);
        }
      case Sweep(at) =>
        if at >= s.clock {
          SweepKeeps(s, at);
        }
      case _ => QuietKeeps(s, Step(s, a));
    }
  }

  // ---- What repeats are told ----

  lemma RepeatIsTold(s: State, at: int, m: Outbound)
    requires Kept(s) && Told(s) && at >= s.clock && KeyOf(m) != "" && Live(s.store, SlotOf(m), at)
    ensures var slot := SlotOf(m);
      Told(s.(clock := at,
              history := s.history
                + [Repeat(slot, s.store.idempotency[slot].messageID, at, s.owners[slot], |s.senders|)]))
  {
    var slot := SlotOf(m);
    var r := Repeat(slot, s.store.idempotency[slot].messageID, at, s.owners[slot], |s.senders|);
    var after := s.(clock := at, history := s.history + [r]);
    assert NamesOwner(s, r);
    forall p | 0 <= p < |s.senders| ensures RepeatsOf(s, r, p) {
      assert Protected(s, p);
    }
    HistoryIsTold(s, after, r);
  }

  lemma HistoryIsTold(s: State, after: State, r: Event)
    requires Told(s) && r.Repeat? && NamesOwner(s, r)
    requires forall p :: 0 <= p < |s.senders| ==> RepeatsOf(s, r, p)
    requires after.senders == s.senders && after.robbed == s.robbed && after.history == s.history + [r]
    ensures Told(after)
  {
    forall e <- after.history | e.Repeat? ensures NamesOwner(after, e) {
      assert e == r || e in s.history;
      assert NamesOwner(s, e);
    }
    forall e <- after.history, p | 0 <= p < |after.senders| && e.Repeat? ensures RepeatsOf(after, e, p) {
      assert e == r || e in s.history;
      assert RepeatsOf(s, e, p);
    }
    forall p | 0 <= p < |after.senders|
      ensures HasSent(after, p) <==> Keyed(after.senders[p]) && after.senders[p].phase == Enqueued
    {
      assert HasSent(after, p) <==> HasSent(s, p);
    }
  }

  lemma BegunIsTold(s: State, at: int, m: Outbound)
    requires Told(s)
    ensures Told(Begun(s, at, m))
  {
    var after, n := Begun(s, at, m), |s.senders|;
    hide Reserve;
    forall e <- after.history | e.Repeat? ensures NamesOwner(after, e) {
      assert NamesOwner(s, e);
    }
    forall e <- after.history, p | 0 <= p < |after.senders| && e.Repeat? ensures RepeatsOf(after, e, p) {
      assert NamesOwner(s, e);
      assert p < n ==> RepeatsOf(s, e, p);
    }
    forall p | 0 <= p < |after.senders|
      ensures HasSent(after, p) <==> Keyed(after.senders[p]) && after.senders[p].phase == Enqueued
    {
      assert p < n ==> (HasSent(after, p) <==> HasSent(s, p));
    }
  }

  lemma BeginIsTold(s: State, a: Action)
    requires Kept(s) && Told(s) && a.Begin? && a.at >= s.clock
    ensures Told(Step(s, a))
  {
    var m := Named(a.request, a.generated);
    if Refusal(s.store, a.request, a.authorized).Some? {
      SameIsTold(s, Step(s, a));
    } else if KeyOf(m) != "" && Live(s.store, SlotOf(m), a.at) {
      RepeatIsTold(s, a.at, m);
    } else {
      assert Step(s, a) == Begun(s, a.at, m);
      BegunIsTold(s, a.at, m);
    }
  }

  lemma SameIsTold(s: State, after: State)
    requires Told(s) && after.senders == s.senders && after.robbed == s.robbed && after.history == s.history
    ensures Told(after)
  {
    forall e <- after.history | e.Repeat? ensures NamesOwner(after, e) {
      assert NamesOwner(s, e);
    }
    forall e <- after.history, p | 0 <= p < |after.senders| && e.Repeat? ensures RepeatsOf(after, e, p) {
      assert RepeatsOf(s, e, p);
    }
    forall p | 0 <= p < |after.senders|
      ensures HasSent(after, p) <==> Keyed(after.senders[p]) && after.senders[p].phase == Enqueued
    {
      assert HasSent(after, p) <==> HasSent(s, p);
    }
  }

  /** One send's phase moves on; only an enqueued one is told as sent. */
  lemma PhaseIsTold(s: State, after: State, i: nat, phase: Phase)
    requires Told(s) && i < |s.senders| && s.senders[i].phase != Undone && s.senders[i].phase != Enqueued
    requires after.senders == s.senders[i := s.senders[i].(phase := phase)] && s.robbed <= after.robbed
    requires after.history == if phase == Enqueued && Keyed(s.senders[i])
                              then s.history + [Sent(SlotOf(s.senders[i].message), s.senders[i].message.id, i)]
                              else s.history
    ensures Told(after)
  {
    forall e <- after.history | e.Repeat? ensures NamesOwner(after, e) {
      assert e in s.history && NamesOwner(s, e);
    }
    forall e <- after.history, p | 0 <= p < |after.senders| && e.Repeat? ensures RepeatsOf(after, e, p) {
      assert e in s.history && RepeatsOf(s, e, p);
    }
    forall p | 0 <= p < |after.senders|
      ensures HasSent(after, p) <==> Keyed(after.senders[p]) && after.senders[p].phase == Enqueued
    {
      assert HasSent(s, p) <==> Keyed(s.senders[p]) && s.senders[p].phase == Enqueued;
    }
  }

  lemma StepIsTold(s: State, a: Action)
    requires Kept(s) && Told(s)
    ensures Told(Step(s, a))
  {
    hide Kept;
    hide Told;
    match a {
      case Begin(at, _, _, _) =>
        if at >= s.clock {
          BeginIsTold(s, a);
        }
      case Offer(i) =>
        if i < |s.senders| && s.senders[i].phase == Pending {
          PhaseIsTold(s, Step(s, a), i, Step(s, a).senders[i].phase);
        }
      case Rollback(i) =>
        if i < |s.senders| && s.senders[i].phase == Rejected {
          PhaseIsTold(s, Step(s, a), i, Undone);
        }
      case _ => SameIsTold(s, Step(s, a));
    }
  }

  lemma {:induction false} RunIsKept(channels: map<string, bool>, start: int, actions: seq<Action>)
    ensures Kept(Run(Initial(channels, start), actions)) && Told(Run(Initial(channels, start), actions))
  {
    if actions != [] {
      hide Step;
      hide Kept;
      hide Told;
      var n := |actions| - 1;
      RunIsKept(channels, start, actions[..n]);
      StepKeeps(Run(Initial(channels, start), actions[..n]), actions[n]);
      StepIsTold(Run(Initial(channels, start), actions[..n]), actions[n]);
    }
  }

  // ---- The promises ----

  /** Two sends of one slot, p first. */
  predicate SameSlot(s: State, p: nat, q: nat)
    requires p < |s.senders| && q < |s.senders|
  {
    Keyed(s.senders[p]) && Keyed(s.senders[q]) && SlotOf(s.senders[p].message) == SlotOf(s.senders[q].message)
  }

  /**
   In every interleaving: if two messages enqueued for one channel and trimmed key were reserved within the
   window of each other, or a keyed send within the window of an enqueued one was not told its id, then the
   rollback of a third send had deleted the first one's reservation.
   */
  lemma DuplicatesWereRobbed(channels: map<string, bool>, start: int, actions: seq<Action>, p: nat)
    requires p < |Run(Initial(channels, start), actions).senders|
    requires Run(Initial(channels, start), actions).senders[p].phase == Enqueued
    ensures var s := Run(Initial(channels, start), actions);
      && (forall q :: p < q < |s.senders| && SameSlot(s, p, q) && s.senders[q].at - s.senders[p].at <= WINDOW ==>
          p in s.robbed)
      && (forall r <- s.history :: Follows(s, r, p) && r.sender != p ==> p in s.robbed)
  {
    RunIsKept(channels, start, actions);
    var s := Run(Initial(channels, start), actions);
    hide Run;
    forall q | p < q < |s.senders| && SameSlot(s, p, q) && s.senders[q].at - s.senders[p].at <= WINDOW
      ensures p in s.robbed
    {
      assert Apart(s, p, q);
    }
    forall r <- s.history | Follows(s, r, p) && r.sender != p ensures p in s.robbed {
      assert RepeatsOf(s, r, p);
    }
  }

  /** A rollback happens within the window of its own reservation. */
  predicate Timely(s: State, a: Action)
  {
    a.Rollback? && a.sender < |s.senders| && s.senders[a.sender].phase == Rejected ==>
      s.clock - s.senders[a.sender].at <= WINDOW
  }

  ghost predicate AlwaysTimely(channels: map<string, bool>, start: int, actions: seq<Action>)
  {
    actions != [] ==>
      var n := |actions| - 1;
      AlwaysTimely(channels, start, actions[..n]) && Timely(Run(Initial(channels, start), actions[..n]), actions[n])
  }

  lemma TimelyRobsNobody(s: State, a: Action)
    requires Kept(s) && s.robbed == {} && Timely(s, a)
    ensures Step(s, a).robbed == {}
  {
    if a.Rollback? && a.sender < |s.senders| && s.senders[a.sender].phase == Rejected {
      assert Protected(s, a.sender);
    }
  }

  lemma {:induction false} NobodyIsRobbed(channels: map<string, bool>, start: int, actions: seq<Action>)
    requires AlwaysTimely(channels, start, actions)
    ensures Run(Initial(channels, start), actions).robbed == {}
  {
    if actions != [] {
      var n := |actions| - 1;
      NobodyIsRobbed(channels, start, actions[..n]);
      RunIsKept(channels, start, actions[..n]);
      hide Step;
      hide Kept;
      hide Told;
      TimelyRobsNobody(Run(Initial(channels, start), actions[..n]), actions[n]);
    }
  }

  /**
   If each send that is rolled back is so within the window of its reservation: two messages enqueued for one
   channel and trimmed key were reserved more than 30 minutes apart, and every keyed send that came in between
   was told the first one's id.
   */
  lemma TimelySendsAreIdempotent(channels: map<string, bool>, start: int, actions: seq<Action>, p: nat)
    requires AlwaysTimely(channels, start, actions)
    requires p < |Run(Initial(channels, start), actions).senders|
    requires Run(Initial(channels, start), actions).senders[p].phase == Enqueued
    ensures var s := Run(Initial(channels, start), actions);
      && (forall q :: p < q < |s.senders| && SameSlot(s, p, q) ==> s.senders[q].at - s.senders[p].at > WINDOW)
      && (forall r <- s.history :: Follows(s, r, p) ==> r.sender == p && r.id == s.senders[p].message.id)
  {
    NobodyIsRobbed(channels, start, actions);
    DuplicatesWereRobbed(channels, start, actions, p);
    RunIsKept(channels, start, actions);
    var s := Run(Initial(channels, start), actions);
    hide Run;
    assert forall r <- s.history :: r.Repeat? ==> NamesOwner(s, r);
  }

  // ---- When a repeat names a message that is never enqueued ----

  lemma RunAppend(s: State, actions: seq<Action>, a: Action)
    ensures Run(s, actions + [a]) == Step(Run(s, actions), a)
  {
    assert (actions + [a])[..|actions|] == actions;
  }

  /** However the run goes on, send p's message is not told as enqueued. */
  ghost predicate NeverSent(channels: map<string, bool>, start: int, actions: seq<Action>, p: nat)
  {
    forall more: seq<Action> ::
      var s := Run(Initial(channels, start), actions + more);
      p < |s.senders| ==> !HasSent(s, p)
  }

  predicate Failed(s: State, p: nat)
    requires p < |s.senders|
  {
    s.senders[p].phase in {Rejected, Undone}
  }

  lemma FailureStays(s: State, a: Action, p: nat)
    requires p < |s.senders| && Failed(s, p)
    ensures p < |Step(s, a).senders| && Failed(Step(s, a), p)
  {
  }

  lemma {:induction false} FailureIsForGood(s: State, more: seq<Action>, actions: seq<Action>,
                                            channels: map<string, bool>, start: int, p: nat)
    requires s == Run(Initial(channels, start), actions) && p < |s.senders| && Failed(s, p)
    ensures var after := Run(Initial(channels, start), actions + more); p < |after.senders| && Failed(after, p)
  {
    if more == [] {
      assert actions + more == actions;
    } else {
      var n := |more| - 1;
      FailureIsForGood(s, more[..n], actions, channels, start, p);
      assert actions + more == actions + more[..n] + [more[n]];
      RunAppend(Initial(channels, start), actions + more[..n], more[n]);
      hide Run;
      FailureStays(Run(Initial(channels, start), actions + more[..n]), more[n], p);
    }
  }

  /** A send is rejected exactly when its channel has no worker or its worker's queue is full. */
  lemma OfferFailsIff(s: State, i: nat)
    requires i < |s.senders|
    ensures var m := s.senders[i].message;
      Failed(OfferStep(s, i), i) <==>
      m.channelID !in s.store.queues || |s.store.queues[m.channelID].items| >= s.store.queues[m.channelID].capacity
  {
  }

  lemma OfferToNewWorkerIsSent(s: State, p: nat)
    requires p < |s.senders| && s.senders[p].phase == Pending && Keyed(s.senders[p])
    ensures var after := Step(Step(s, StartWorker(s.senders[p].message.channelID, 1)), Offer(p));
      p < |after.senders| && HasSent(after, p)
  {
  }

  /** A pending send can still be enqueued. */
  lemma PendingMayBeSent(channels: map<string, bool>, start: int, actions: seq<Action>, p: nat)
    requires var s := Run(Initial(channels, start), actions);
      p < |s.senders| && s.senders[p].phase == Pending && Keyed(s.senders[p])
    ensures !NeverSent(channels, start, actions, p)
  {
    var s := Run(Initial(channels, start), actions);
    var start1 := StartWorker(s.senders[p].message.channelID, 1);
    OfferToNewWorkerIsSent(s, p);
    RunAppend(Initial(channels, start), actions, start1);
    RunAppend(Initial(channels, start), actions + [start1], Offer(p));
    assert actions + [start1, Offer(p)] == actions + [start1] + [Offer(p)];
    hide Run;
    hide Step;
    hide HasSent;
  }

  /**
   In every interleaving a repeat names the send whose live reservation it found, and however the run goes on
   that send's message is never enqueued if and only if the send failed: no worker, or a full queue.
   */
  lemma RepeatIsLostIff(channels: map<string, bool>, start: int, actions: seq<Action>, r: Event)
    requires r in Run(Initial(channels, start), actions).history && r.Repeat?
    ensures var s := Run(Initial(channels, start), actions);
      && NamesOwner(s, r)
      && (NeverSent(channels, start, actions, r.sender) <==> Failed(s, r.sender))
  {
    RunIsKept(channels, start, actions);
    var s := Run(Initial(channels, start), actions);
    hide Step;
    hide Run;
    hide Kept;
    assert NamesOwner(s, r);
    if s.senders[r.sender].phase == Pending {
      PendingMayBeSent(channels, start, actions, r.sender);
    } else if Failed(s, r.sender) {
      forall more: seq<Action>
        ensures var after := Run(Initial(channels, start), actions + more); r.sender < |after.senders| ==>
          !HasSent(after, r.sender)
      {
        FailureIsForGood(s, more, actions, channels, start, r.sender);
        RunIsKept(channels, start, actions + more);
      }
    } else {
      assert actions + [] == actions;
      assert HasSent(s, r.sender);
      assert HasSent(Run(Initial(channels, start), actions + []), r.sender);
    }
  }

  // ---- Sends that nothing interrupts ----

  /** A send's critical sections one right after the other. */
  function Whole(s: State, a: Action): State
    requires a.Begin?
  {
    var begun, i := Step(s, a), |s.senders|;
    if |begun.senders| > i then Step(Step(begun, Offer(i)), Rollback(i)) else begun
  }

  function RunWhole(s: State, actions: seq<Action>): State
  {
    if actions == [] then s
    else
      var before, a := RunWhole(s, actions[..|actions| - 1]), actions[|actions| - 1];
      match a
      case Begin(_, _, _, _) => Whole(before, a)
      case Offer(_) => before
      case Rollback(_) => before
      case _ => Step(before, a)
  }

  /** Uninterrupted, the critical sections have the effect of the send method. */
  lemma WholeIsSend(s: State, a: Action)
    requires Owned(s) && a.Begin? && a.at >= s.clock
    ensures Whole(s, a).store == SendEffect(s.store, a.request, a.authorized, a.generated, a.at).0
  {
    var m := Named(a.request, a.generated);
    if Refusal(s.store, a.request, a.authorized).None? && !(KeyOf(m) != "" && Live(s.store, SlotOf(m), a.at)) {
      assert Step(s, a) == Begun(s, a.at, m);
      assert Reserve(s.store, m, a.at).1.None?;
    }
  }

  /** A run of uninterrupted sends is a timely run of their critical sections. */
  lemma {:induction false} WholeIsTimely(channels: map<string, bool>, start: int, actions: seq<Action>)
    returns (steps: seq<Action>)
    ensures AlwaysTimely(channels, start, steps)
    ensures Run(Initial(channels, start), steps) == RunWhole(Initial(channels, start), actions)
  {
    if actions == [] {
      steps := [];
    } else {
      var n := |actions| - 1;
      var a := actions[n];
      steps := WholeIsTimely(channels, start, actions[..n]);
      var s := Run(Initial(channels, start), steps);
      if a.Begin? {
        RunIsKept(channels, start, steps);
        hide RunWhole;
        steps := WholeSteps(channels, start, steps, a);
      } else if !a.Offer? && !a.Rollback? {
        TimelyAppend(channels, start, steps, a);
        steps := steps + [a];
      }
    }
  }

  lemma TimelyAppend(channels: map<string, bool>, start: int, steps: seq<Action>, a: Action)
    requires AlwaysTimely(channels, start, steps) && Timely(Run(Initial(channels, start), steps), a)
    ensures AlwaysTimely(channels, start, steps + [a])
    ensures Run(Initial(channels, start), steps + [a]) == Step(Run(Initial(channels, start), steps), a)
  {
    assert (steps + [a])[..|steps|] == steps;
  }

  lemma WholeSteps(channels: map<string, bool>, start: int, before: seq<Action>, a: Action) returns (steps: seq<Action>)
    requires AlwaysTimely(channels, start, before) && a.Begin?
    ensures AlwaysTimely(channels, start, steps)
    ensures Run(Initial(channels, start), steps) == Whole(Run(Initial(channels, start), before), a)
  {
    var s := Run(Initial(channels, start), before);
    var i := |s.senders|;
    TimelyAppend(channels, start, before, a);
    steps := before + [a];
    var begun := Step(s, a);
    if |begun.senders| > i {
      assert begun.senders[i].at == begun.clock;
      TimelyAppend(channels, start, steps, Offer(i));
      steps := steps + [Offer(i)];
      var offered := Step(begun, Offer(i));
      assert offered.clock == begun.clock && offered.senders[i].at == offered.clock;
      TimelyAppend(channels, start, steps, Rollback(i));
      steps := steps + [Rollback(i)];
    }
  }

  /**
   Over every run of uninterrupted sends: two messages enqueued for one channel and trimmed key were reserved
   more than 30 minutes apart, and every keyed send in between returns the first one's id.
   */
  lemma SendIsIdempotent(channels: map<string, bool>, start: int, actions: seq<Action>, p: nat)
    requires p < |RunWhole(Initial(channels, start), actions).senders|
    requires RunWhole(Initial(channels, start), actions).senders[p].phase == Enqueued
    ensures var s := RunWhole(Initial(channels, start), actions);
      && (forall q :: p < q < |s.senders| && SameSlot(s, p, q) ==> s.senders[q].at - s.senders[p].at > WINDOW)
      && (forall r <- s.history :: Follows(s, r, p) ==> r.sender == p && r.id == s.senders[p].message.id)
  {
    var steps := WholeIsTimely(channels, start, actions);
    hide Run;
    hide RunWhole;
    TimelySendsAreIdempotent(channels, start, steps, p);
  }

  /** Every send is over, and each reservation and each repeat is of an enqueued one. */
  ghost predicate AllOver(s: State)
  {
    && (forall t <- s.senders :: t.phase == Enqueued || t.phase == Undone)
    && (forall slot <- s.store.idempotency ::
          slot in s.owners && s.owners[slot] < |s.senders| && s.senders[s.owners[slot]].phase == Enqueued)
    && (forall r <- s.history :: r.Repeat? ==> r.sender < |s.senders| && s.senders[r.sender].phase == Enqueued)
  }

  lemma WholeIsOver(s: State, a: Action)
    requires AllOver(s) && a.Begin? && a.at >= s.clock
    ensures AllOver(Whole(s, a))
  {
    var m := Named(a.request, a.generated);
    if Refusal(s.store, a.request, a.authorized).None? && !(KeyOf(m) != "" && Live(s.store, SlotOf(m), a.at)) {
      assert Step(s, a) == Begun(s, a.at, m);
      BegunIsOver(s, a.at, m);
    }
  }

  /** A send begun with nothing in between is enqueued with its reservation, or undone without one. */
  lemma BegunEnds(s: State, at: int, m: Outbound) returns (phase: Phase)
    requires KeyOf(m) != "" ==> !Live(s.store, SlotOf(m), at)
    ensures phase == Enqueued || phase == Undone
    ensures var i := |s.senders|; var after := Step(Step(Begun(s, at, m), Offer(i)), Rollback(i));
      && after.senders == s.senders + [Sender(m, at, phase)]
      && (forall slot <- after.store.idempotency ::
            && (slot in s.store.idempotency || slot == SlotOf(m))
            && (phase == Undone || slot != SlotOf(m) ==> slot in s.store.idempotency)
            && (phase == Undone && KeyOf(m) != "" ==> slot != SlotOf(m)))
      && after.owners == (if KeyOf(m) == "" then s.owners else s.owners[SlotOf(m) := i])
      && (forall r <- after.history :: r.Repeat? ==> r in s.history)
  {
    var begun, i := Begun(s, at, m), |s.senders|;
    phase := if OfferStep(begun, i).senders[i].phase == Enqueued then Enqueued else Undone;
  }

  lemma BegunIsOver(s: State, at: int, m: Outbound)
    requires AllOver(s) && (KeyOf(m) != "" ==> !Live(s.store, SlotOf(m), at))
    ensures var i := |s.senders|; AllOver(Step(Step(Begun(s, at, m), Offer(i)), Rollback(i)))
  {
    var phase := BegunEnds(s, at, m);
    hide Step;
    hide Begun;
    hide Live;
    hide SlotOf;
    hide KeyOf;
    assert forall j :: 0 <= j < |s.senders| ==> s.senders[j] in s.senders;
  }

  lemma {:induction false} WholeRunIsOver(channels: map<string, bool>, start: int, actions: seq<Action>)
    ensures AllOver(RunWhole(Initial(channels, start), actions))
  {
    if actions != [] {
      var n := |actions| - 1;
      var s, a := RunWhole(Initial(channels, start), actions[..n]), actions[n];
      WholeRunIsOver(channels, start, actions[..n]);
      if a.Begin? {
        if a.at >= s.clock {
          hide AllOver;
          WholeIsOver(s, a);
        }
      }
    }
  }

  /** A repeat is never invented: uninterrupted, its id was enqueued for the slot at most 30 minutes before. */
  lemma RepeatNamesEnqueued(channels: map<string, bool>, start: int, actions: seq<Action>, r: Event)
    requires r in RunWhole(Initial(channels, start), actions).history && r.Repeat?
    ensures var s := RunWhole(Initial(channels, start), actions);
      NamesOwner(s, r) && Sent(r.slot, r.id, r.sender) in s.history
  {
    var steps := WholeIsTimely(channels, start, actions);
    RunIsKept(channels, start, steps);
    WholeRunIsOver(channels, start, actions);
    hide Run;
    hide RunWhole;
    hide Kept;
    var s := RunWhole(Initial(channels, start), actions);
    assert NamesOwner(s, r);
    assert HasSent(s, r.sender);
  }

  // ---- A rollback that comes too late ----

  /**
   A message finds no worker; its rollback is slow. Beyond the window the same request reserves anew, the late
   rollback deletes that reservation, and a third copy reserves again at the same time.
   */
  function Late(m: Outbound): seq<Action>
  {
    [Begin(0, m, true, ""), Offer(0), Begin(WINDOW + 1, m, true, ""), Rollback(0), Begin(WINDOW + 1, m, true, ""),
     StartWorker(m.channelID, 2), Offer(1), Offer(2)]
  }

  /** The state after the late rollback. */
  function LateRollback(channels: map<string, bool>, m: Outbound): State
  {
    var all := Late(m);
    Step(Step(Step(Step(Initial(channels, 0), all[0]), all[1]), all[2]), all[3])
  }

  lemma LateUnfolds(channels: map<string, bool>, m: Outbound)
    ensures var all := Late(m);
      Run(Initial(channels, 0), all)
      == Step(Step(Step(Step(LateRollback(channels, m), all[4]), all[5]), all[6]), all[7])
  {
    hide Step;
    var s, all := Initial(channels, 0), Late(m);
    assert Run(s, []) == s;
    hide Run;
    assert [] + [all[0]] == [all[0]];
    RunAppend(s, [], all[0]);
    RunAppend(s, [all[0]], all[1]);
    RunAppend(s, [all[0]] + [all[1]], all[2]);
    RunAppend(s, [all[0]] + [all[1]] + [all[2]], all[3]);
    RunAppend(s, [all[0]] + [all[1]] + [all[2]] + [all[3]], all[4]);
    RunAppend(s, [all[0]] + [all[1]] + [all[2]] + [all[3]] + [all[4]], all[5]);
    RunAppend(s, [all[0]] + [all[1]] + [all[2]] + [all[3]] + [all[4]] + [all[5]], all[6]);
    RunAppend(s, [all[0]] + [all[1]] + [all[2]] + [all[3]] + [all[4]] + [all[5]] + [all[6]], all[7]);
    assert all == [all[0]] + [all[1]] + [all[2]] + [all[3]] + [all[4]] + [all[5]] + [all[6]] + [all[7]];
  }

  /** What the late rollback leaves: the second send without its reservation. */
  lemma LateRollbackRobs(channels: map<string, bool>, m: Outbound)
    requires Refusal(Initial(channels, 0).store, m, true).None? && KeyOf(m) != "" && m.id != ""
    ensures var s := LateRollback(channels, m);
      && s.senders == [Sender(m, 0, Undone), Sender(m, WINDOW + 1, Pending)]
      && s.robbed == {1} && s.clock == WINDOW + 1 && SlotOf(m) !in s.store.idempotency
      && s.store.channels == channels && s.store.queues == map[]
  {
    var all, s0 := Late(m), Initial(channels, 0);
    var s1 := Step(s0, all[0]);
    assert s1 == Begun(s0, 0, m);
    assert s1.senders == [Sender(m, 0, Pending)];
    var s2 := Step(s1, all[1]);
    assert s2.senders == [Sender(m, 0, Rejected)] && s2.store.idempotency == s1.store.idempotency;
    var s3 := Step(s2, all[2]);
    assert s3 == Begun(s2, WINDOW + 1, m);
    assert s3.senders == [Sender(m, 0, Rejected), Sender(m, WINDOW + 1, Pending)];
  }

  lemma LateSendsAreEnqueued(s: State, m: Outbound)
    requires s.senders == [Sender(m, 0, Undone), Sender(m, WINDOW + 1, Pending)] && s.clock == WINDOW + 1
    requires Refusal(s.store, m, true).None? && KeyOf(m) != "" && m.id != "" && SlotOf(m) !in s.store.idempotency
    ensures var all := Late(m); var after := Step(Step(Step(Step(s, all[4]), all[5]), all[6]), all[7]);
      after.senders == [Sender(m, 0, Undone), Sender(m, WINDOW + 1, Enqueued), Sender(m, WINDOW + 1, Enqueued)]
  {
    var all := Late(m);
    var s5 := Step(s, all[4]);
    assert s5 == Begun(s, WINDOW + 1, m);
    assert s5.senders == [Sender(m, 0, Undone), Sender(m, WINDOW + 1, Pending), Sender(m, WINDOW + 1, Pending)];
    var s6 := Step(s5, all[5]);
    var s7 := Step(s6, all[6]);
    assert s6.store.queues[m.channelID] == Queue(2, []);
    assert s7.senders == [Sender(m, 0, Undone), Sender(m, WINDOW + 1, Enqueued), Sender(m, WINDOW + 1, Pending)];
    assert |s7.store.queues[m.channelID].items| == 1;
  }

  /** A rollback later than the window lets the same request be enqueued twice at once. */
  lemma LateRollbackDuplicates(channels: map<string, bool>, m: Outbound)
    requires Refusal(Initial(channels, 0).store, m, true).None? && KeyOf(m) != "" && m.id != ""
    ensures var s := Run(Initial(channels, 0), Late(m));
      && |s.senders| == 3 && SameSlot(s, 1, 2) && s.senders[1].phase == s.senders[2].phase == Enqueued
      && s.senders[2].at == s.senders[1].at
  {
    LateUnfolds(channels, m);
    LateRollbackRobs(channels, m);
    var s := LateRollback(channels, m);
    hide Step;
    hide Run;
    hide LateRollback;
    LateSendsAreEnqueued(s, m);
  }
}
