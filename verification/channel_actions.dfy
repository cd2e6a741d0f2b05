/**
 Typing indicators and reactions: each is registered once, consumed once, and its callback runs at most
 once, however users, the janitor and inbound preparation interleave.
 */
module ChannelActions {
  import opened Sequences
  import opened Text

  // ---- Action ids ----

  datatype Kind = Typing | Reaction

  function KindName(kind: Kind): string
  {
    if kind == Typing then "typing" else "reaction"
  }

  /** newActionID: the kind, the clock and the repository's counter. */
  function ActionID(kind: Kind, nanos: nat, n: nat): string
  {
    KindName(kind) + "-" + Decimal(nanos) + "-" + Decimal(n)
  }

  lemma {:induction false} DecimalIsDigits(n: nat)
    ensures forall c <- Decimal(n) :: '0' <= c <= '9'
  {
    if n >= 10 {
      DecimalIsDigits(n / 10);
    }
  }

  /** The part of an id after its last dash. */
  function AfterLastDash(s: string): string
  {
    if s == "" || s[|s| - 1] == '-' then "" else AfterLastDash(s[..|s| - 1]) + [s[|s| - 1]]
  }

  lemma {:induction false} DashSplits(prefix: string, digits: string)
    requires forall c <- digits :: c != '-'
    ensures AfterLastDash(prefix + "-" + digits) == digits
  {
    var s := prefix + "-" + digits;
    if digits != "" {
      var n := |digits| - 1;
      assert s[..|s| - 1] == prefix + "-" + digits[..n];
      assert digits[n] in digits && forall c <- digits[..n] :: c in digits;
      DashSplits(prefix, digits[..n]);
    }
  }

  /** Ids made from different counter values differ, whatever the clock says. */
  lemma ActionIDInjective(k1: Kind, t1: nat, n1: nat, k2: Kind, t2: nat, n2: nat)
    requires ActionID(k1, t1, n1) == ActionID(k2, t2, n2)
    ensures n1 == n2
  {
    DecimalIsDigits(n1);
    DecimalIsDigits(n2);
    DashSplits(KindName(k1) + "-" + Decimal(t1), Decimal(n1));
    DashSplits(KindName(k2) + "-" + Decimal(t2), Decimal(n2));
    DecimalInjective(n1, n2);
  }

  ghost predicate IssuedBefore(id: string, counter: nat)
  {
    exists kind, nanos: nat, n: nat :: n <= counter && id == ActionID(kind, nanos, n)
  }

  lemma NextIDIsNew(kind: Kind, nanos: nat, counter: nat)
    ensures !IssuedBefore(ActionID(kind, nanos, counter + 1), counter)
    ensures IssuedBefore(ActionID(kind, nanos, counter + 1), counter + 1)
  {
    var id := ActionID(kind, nanos, counter + 1);
    if IssuedBefore(id, counter) {
      var k, t: nat, n: nat :| n <= counter && id == ActionID(k, t, n);
      ActionIDInjective(kind, nanos, counter + 1, k, t, n);
    }
  }

  // ---- Every interleaving ----

  datatype TypingEntry = TypingEntry(hasStop: bool, createdAt: int)
  datatype ReactionEntry = ReactionEntry(hasComplete: bool, hasExpire: bool, createdAt: int)

  datatype Callback = StopTypingOf(id: string) | CompleteOf(id: string) | ExpireOf(id: string)

  /** An id that is not registered yet, or callbacks whose entries are deleted and which are still to run. */
  datatype Thread =
    | RegisteringTyping(id: string, hasStop: bool)
    | RegisteringReaction(id: string, hasComplete: bool, hasExpire: bool)
    | Firing(callbacks: set<Callback>)
    | Done

  /** registered and consumed are histories of ids. */
  datatype State = State(
    nextID: nat, typings: map<string, TypingEntry>, reactions: map<string, ReactionEntry>,
    threads: seq<Thread>, fired: seq<Callback>, registered: set<string>, consumed: set<string>)

  const INITIAL := State(0, map[], map[], [], [], {}, {})

  datatype Action =
    | AllocateTyping(nanos: nat, hasStop: bool)
    | AllocateReaction(nanos: nat, hasComplete: bool, hasExpire: bool)
    | Register(thread: nat, now: int)
    | OtherUse                                    // the counter also numbers subscriptions
    | StopTyping(id: string)
    | ApplyReaction(id: string, complete: bool)
    | Sweep(now: int)
    | Fire(thread: nat, callback: Callback)
    | Abandon(thread: nat)

  const TYPING_LIFE: int := 5 * 60 * 1_000_000_000
  const REACTION_LIFE: int := 30 * 60 * 1_000_000_000

  function StaleTypings(typings: map<string, TypingEntry>, now: int): set<string>
  {
    set id | id in typings && now - typings[id].createdAt > TYPING_LIFE
  }

  function StaleReactions(reactions: map<string, ReactionEntry>, now: int): set<string>
  {
    set id | id in reactions && now - reactions[id].createdAt > REACTION_LIFE
  }

  function SweptCallbacks(typings: map<string, TypingEntry>, reactions: map<string, ReactionEntry>,
                          now: int): set<Callback>
  {
    (set id | id in StaleTypings(typings, now) && typings[id].hasStop :: StopTypingOf(id))
    + (set id | id in StaleReactions(reactions, now) && reactions[id].hasExpire :: ExpireOf(id))
  }

  function StopCallbacks(typings: map<string, TypingEntry>, id: string): set<Callback>
  {
    if id in typings && typings[id].hasStop then {StopTypingOf(id)} else {}
  }

  function ReactionCallbacks(reactions: map<string, ReactionEntry>, id: string, complete: bool): set<Callback>
  {
    if id !in reactions then {}
    else if complete then (if reactions[id].hasComplete then {CompleteOf(id)} else {})
    else if reactions[id].hasExpire then {ExpireOf(id)} else {}
  }

  function Step(s: State, a: Action): State
  {
    match a
    case AllocateTyping(nanos, hasStop) =>
      s.(nextID := s.nextID + 1,
         threads := s.threads + [RegisteringTyping(ActionID(Typing, nanos, s.nextID + 1), hasStop)])
    case AllocateReaction(nanos, hasComplete, hasExpire) =>
      s.(nextID := s.nextID + 1,
         threads := s.threads + [RegisteringReaction(ActionID(Reaction, nanos, s.nextID + 1), hasComplete, hasExpire)])
    case Register(i, now) =>
      if i >= |s.threads| then s
      else (match s.threads[i]
        case RegisteringTyping(id, hasStop) =>
          s.(typings := s.typings[id := TypingEntry(hasStop, now)], threads := s.threads[i := Done],
             registered := s.registered + {id})
        case RegisteringReaction(id, hasComplete, hasExpire) =>
          s.(reactions := s.reactions[id := ReactionEntry(hasComplete, hasExpire, now)],
             threads := s.threads[i := Done],
             registered := s.registered + {id})
        case _ => s)
    case OtherUse => s.(nextID := s.nextID + 1)
    case StopTyping(id) =>
      s.(typings := s.typings - {id}, threads := s.threads + [Firing(StopCallbacks(s.typings, id))],
         consumed := if id in s.typings then s.consumed + {id} else s.consumed)
    case ApplyReaction(id, complete) =>
      s.(reactions := s.reactions - {id}, threads := s.threads + [Firing(ReactionCallbacks(s.reactions, id, complete))],
         consumed := if id in s.reactions then s.consumed + {id} else s.consumed)
    case Sweep(now) =>
      var t, r := StaleTypings(s.typings, now), StaleReactions(s.reactions, now);
      s.(typings := s.typings - t, reactions := s.reactions - r,
         threads := s.threads + [Firing(SweptCallbacks(s.typings, s.reactions, now))],
         consumed := s.consumed + t + r)
    case Fire(i, c) =>
      if i < |s.threads| && s.threads[i].Firing? && c in s.threads[i].callbacks
      then s.(threads := s.threads[i := Firing(s.threads[i].callbacks - {c})], fired := s.fired + [c]) else s
    case Abandon(i) =>
      if i < |s.threads| then s.(threads := s.threads[i := Done]) else s
  }

  function Run(actions: seq<Action>): State
  {
    if actions == [] then INITIAL else Step(Run(actions[..|actions| - 1]), actions[|actions| - 1])
  }

  // ---- Where an id can be ----

  predicate Holds(t: Thread, id: string)
  {
    match t
    case RegisteringTyping(i, _) => i == id
    case RegisteringReaction(i, _, _) => i == id
    case Firing(callbacks) => StopTypingOf(id) in callbacks || CompleteOf(id) in callbacks || ExpireOf(id) in callbacks
    case Done => false
  }

  function Holding(id: string): Thread -> bool
  {
    (t: Thread) => Holds(t, id)
  }

  function Of(id: string): Callback -> bool
  {
    (c: Callback) => c.id == id
  }

  /** A thread holds at most one callback of an id. */
  predicate Single(t: Thread)
  {
    t.Firing? ==> forall c, d :: c in t.callbacks && d in t.callbacks && c.id == d.id ==> c == d
  }

  /** The number of places an id is in: a table, a thread, or the callbacks that ran. */
  function Places(s: State, id: string): nat
  {
    (if id in s.typings then 1 else 0) + (if id in s.reactions then 1 else 0)
    + CountIf(s.threads, Holding(id)) + CountIf(s.fired, Of(id))
  }

  ghost predicate Tracked(s: State, id: string)
  {
    && Places(s, id) <= 1
    && (Places(s, id) > 0 || id in s.registered ==> IssuedBefore(id, s.nextID))
    && (id in s.registered <==> id in s.typings || id in s.reactions || id in s.consumed)
    && (id in s.consumed ==> id !in s.typings && id !in s.reactions && forall t <- s.threads :: !Waiting(t, id))
  }

  predicate Waiting(t: Thread, id: string)
  {
    (t.RegisteringTyping? || t.RegisteringReaction?) && t.id == id
  }

  ghost predicate Sound(s: State)
  {
    && (forall t <- s.threads :: Single(t))
    && (forall id :: Tracked(s, id))
  }

  lemma SweptIsSingle(s: State, now: int)
    requires forall id :: !(id in s.typings && id in s.reactions)
    ensures Single(Firing(SweptCallbacks(s.typings, s.reactions, now)))
  {
  }

  lemma {:induction false} HolderCounts(threads: seq<Thread>, i: nat, id: string)
    requires i < |threads| && Holds(threads[i], id)
    ensures CountIf(threads, Holding(id)) >= 1
  {
    CountUpdate(threads, i, Done, Holding(id));
  }

  lemma {:induction false} CountedHolds(threads: seq<Thread>, id: string)
    requires CountIf(threads, Holding(id)) == 0
    ensures forall t <- threads :: !Holds(t, id)
  {
    if threads != [] {
      CountedHolds(threads[..|threads| - 1], id);
    }
  }

  lemma AllocateIsTracked(s: State, t: Thread, kind: Kind, nanos: nat, id: string)
    requires Tracked(s, id)
    requires t.RegisteringTyping? || t.RegisteringReaction?
    requires t.id == ActionID(kind, nanos, s.nextID + 1)
    ensures Tracked(s.(nextID := s.nextID + 1, threads := s.threads + [t]), id)
  {
    NextIDIsNew(kind, nanos, s.nextID);
    CountAppend(s.threads, t, Holding(id));
    if IssuedBefore(id, s.nextID) {
      var k, m: nat, n: nat :| n <= s.nextID && id == ActionID(k, m, n);
      assert n <= s.nextID + 1 && id == ActionID(k, m, n);
    }
  }

  lemma RegisterIsTracked(s: State, i: nat, now: int, id: string)
    requires Tracked(s, id) && i < |s.threads| && (s.threads[i].RegisteringTyping? || s.threads[i].RegisteringReaction?)
    ensures Tracked(Step(s, Register(i, now)), id)
  {
    assert s.threads[i] in s.threads;
    CountUpdate(s.threads, i, Done, Holding(id));
    if s.threads[i].id == id {
      HolderCounts(s.threads, i, id);
    }
    var after := Step(s, Register(i, now));
    forall t <- after.threads | Waiting(t, id) ensures Waiting(t, id) && (t in s.threads) {
      var j :| 0 <= j < |after.threads| && after.threads[j] == t;
      assert s.threads[j] == t;
    }
  }

  /** Deleting entries and handing their callbacks to a new thread. */
  function Consumed(s: State, gone: set<string>, callbacks: set<Callback>): State
  {
    s.(typings := s.typings - gone, reactions := s.reactions - gone,
       threads := s.threads + [Firing(callbacks)], consumed := s.consumed + gone)
  }

  lemma ConsumeIsTracked(s: State, gone: set<string>, callbacks: set<Callback>, id: string)
    requires Tracked(s, id)
    requires forall x <- gone :: x in s.typings || x in s.reactions
    requires Holds(Firing(callbacks), id) ==> id in gone
    ensures Tracked(Consumed(s, gone, callbacks), id)
  {
    CountAppend(s.threads, Firing(callbacks), Holding(id));
    if id in gone {
      CountedHolds(s.threads, id);
    }
  }

  /** Running a callback takes its id, and no other, out of the thread that holds it. */
  lemma FireReleases(callbacks: set<Callback>, c: Callback, id: string)
    requires Single(Firing(callbacks)) && c in callbacks
    ensures Holds(Firing(callbacks - {c}), id) <==> Holds(Firing(callbacks), id) && c.id != id
    ensures c.id == id ==> Holds(Firing(callbacks), id)
  {
    assert c.id == c.id;
  }

  lemma FireKeepsPlaces(s: State, i: nat, c: Callback, id: string)
    requires i < |s.threads| && s.threads[i].Firing? && c in s.threads[i].callbacks && Single(s.threads[i])
    ensures Places(Step(s, Fire(i, c)), id) == Places(s, id)
  {
    var t := Firing(s.threads[i].callbacks - {c});
    FireReleases(s.threads[i].callbacks, c, id);
    hide Single;
    hide CountIf;
    hide Holds;
    CountUpdate(s.threads, i, t, Holding(id));
    CountAppend(s.fired, c, Of(id));
  }

  lemma FireIsTracked(s: State, i: nat, c: Callback, id: string)
    requires Tracked(s, id) && i < |s.threads| && s.threads[i].Firing? && c in s.threads[i].callbacks
             && Single(s.threads[i])
    ensures Tracked(Step(s, Fire(i, c)), id)
  {
    FireKeepsPlaces(s, i, c, id);
    hide Single;
    hide Places;
    hide IssuedBefore;
    MembersOfUpdate(s.threads, i, Firing(s.threads[i].callbacks - {c}));
  }

  lemma AbandonIsTracked(s: State, i: nat, id: string)
    requires Tracked(s, id) && i < |s.threads|
    ensures Tracked(s.(threads := s.threads[i := Done]), id)
  {
    CountUpdate(s.threads, i, Done, Holding(id));
    var after := s.threads[i := Done];
    MembersOfUpdate(s.threads, i, Done);
  }

  lemma NeverBoth(s: State)
    requires Sound(s)
    ensures forall id :: !(id in s.typings && id in s.reactions)
  {
    forall id ensures !(id in s.typings && id in s.reactions) {
      assert Tracked(s, id);
    }
  }

  /** A counter value spent elsewhere is not reused. */
  lemma SkipIsTracked(s: State, id: string)
    requires Tracked(s, id)
    ensures Tracked(s.(nextID := s.nextID + 1), id)
  {
    if IssuedBefore(id, s.nextID) {
      var k, m: nat, n: nat :| n <= s.nextID && id == ActionID(k, m, n);
      assert n <= s.nextID + 1 && id == ActionID(k, m, n);
    }
  }

  lemma FireStepIsTracked(s: State, i: nat, c: Callback, id: string)
    requires Sound(s)
    ensures Tracked(Step(s, Fire(i, c)), id)
  {
    assert Tracked(s, id);
    if i < |s.threads| && s.threads[i].Firing? && c in s.threads[i].callbacks {
      assert Single(s.threads[i]);
      FireIsTracked(s, i, c, id);
    }
  }

  /** Every other step of a thread of its own. */
  lemma ThreadStepIsTracked(s: State, a: Action, id: string)
    requires Tracked(s, id)
    requires a.AllocateTyping? || a.AllocateReaction? || a.Register? || a.OtherUse? || a.Abandon?
    ensures Tracked(Step(s, a), id)
  {
    hide Tracked;
    hide ActionID;
    match a {
      case AllocateTyping(nanos, hasStop) =>
        AllocateIsTracked(s, RegisteringTyping(ActionID(Typing, nanos, s.nextID + 1), hasStop), Typing, nanos, id);
      case AllocateReaction(nanos, hasComplete, hasExpire) =>
        AllocateIsTracked(s, RegisteringReaction(ActionID(Reaction, nanos, s.nextID + 1), hasComplete, hasExpire),
                          Reaction, nanos, id);
      case Register(i, now) =>
        if i < |s.threads| && (s.threads[i].RegisteringTyping? || s.threads[i].RegisteringReaction?) {
          RegisterIsTracked(s, i, now, id);
        }
      case OtherUse => SkipIsTracked(s, id);
      case Abandon(i) =>
        if i < |s.threads| {
          AbandonIsTracked(s, i, id);
        }
    }
  }

  lemma StepTracks(s: State, a: Action, id: string)
    requires Sound(s)
    ensures Tracked(Step(s, a), id)
  {
    assert Tracked(s, id);
    hide Tracked;
    hide Sound;
    hide Step;
    match a {
      case StopTyping(x) => StopIsTracked(s, x, id);
      case ApplyReaction(x, complete) => ApplyIsTracked(s, x, complete, id);
      case Sweep(now) => SweepIsTracked(s, now, id);
      case Fire(i, c) => FireStepIsTracked(s, i, c, id);
      case _ => ThreadStepIsTracked(s, a, id);
    }
  }

  lemma StopConsumes(s: State, x: string)
    requires !(x in s.typings && x in s.reactions)
    ensures var gone := if x in s.typings then {x} else {};
      Step(s, StopTyping(x)) == Consumed(s, gone, StopCallbacks(s.typings, x))
  {
    var gone := if x in s.typings then {x} else {};
    assert s.typings - gone == s.typings - {x} && s.reactions - gone == s.reactions;
    assert s.consumed + gone == if x in s.typings then s.consumed + {x} else s.consumed;
  }

  lemma StopIsTracked(s: State, x: string, id: string)
    requires Sound(s)
    ensures Tracked(Step(s, StopTyping(x)), id)
  {
    NeverBoth(s);
    StopConsumes(s, x);
    assert Tracked(s, id);
    hide Tracked;
    hide Sound;
    hide Step;
    hide Consumed;
    ConsumeIsTracked(s, if x in s.typings then {x} else {}, StopCallbacks(s.typings, x), id);
  }

  lemma ApplyConsumes(s: State, x: string, complete: bool)
    requires !(x in s.typings && x in s.reactions)
    ensures var gone := if x in s.reactions then {x} else {};
      Step(s, ApplyReaction(x, complete)) == Consumed(s, gone, ReactionCallbacks(s.reactions, x, complete))
  {
    var gone := if x in s.reactions then {x} else {};
    assert s.reactions - gone == s.reactions - {x} && s.typings - gone == s.typings;
    assert s.consumed + gone == if x in s.reactions then s.consumed + {x} else s.consumed;
  }

  lemma ApplyIsTracked(s: State, x: string, complete: bool, id: string)
    requires Sound(s)
    ensures Tracked(Step(s, ApplyReaction(x, complete)), id)
  {
    NeverBoth(s);
    ApplyConsumes(s, x, complete);
    assert Tracked(s, id);
    hide Tracked;
    hide Sound;
    hide Step;
    hide Consumed;
    ConsumeIsTracked(s, if x in s.reactions then {x} else {}, ReactionCallbacks(s.reactions, x, complete), id);
  }

  lemma SweepConsumes(s: State, now: int)
    requires forall x :: !(x in s.typings && x in s.reactions)
    ensures Step(s, Sweep(now)) == Consumed(s, StaleTypings(s.typings, now) + StaleReactions(s.reactions, now),
                                            SweptCallbacks(s.typings, s.reactions, now))
  {
    var t, r := StaleTypings(s.typings, now), StaleReactions(s.reactions, now);
    assert s.typings - (t + r) == s.typings - t && s.reactions - (t + r) == s.reactions - r;
    assert s.consumed + (t + r) == s.consumed + t + r;
  }

  lemma SweepIsTracked(s: State, now: int, id: string)
    requires Sound(s)
    ensures Tracked(Step(s, Sweep(now)), id)
  {
    NeverBoth(s);
    SweepConsumes(s, now);
    assert Tracked(s, id);
    hide Tracked;
    hide Sound;
    hide Step;
    hide Consumed;
    ConsumeIsTracked(s, StaleTypings(s.typings, now) + StaleReactions(s.reactions, now),
                     SweptCallbacks(s.typings, s.reactions, now), id);
  }

  lemma StepIsSound(s: State, a: Action)
    requires Sound(s)
    ensures Sound(Step(s, a))
  {
    forall id ensures Tracked(Step(s, a), id) { StepTracks(s, a, id); }
    NeverBoth(s);
    if a.Sweep? { SweptIsSingle(s, a.now); }
    var after := Step(s, a);
    forall t <- after.threads ensures Single(t) {
      var j :| 0 <= j < |after.threads| && after.threads[j] == t;
      if j < |s.threads| { assert s.threads[j] in s.threads && Single(s.threads[j]); }
    }
  }

  lemma {:induction false} RunIsSound(actions: seq<Action>)
    ensures Sound(Run(actions))
  {
    if actions != [] {
      RunIsSound(actions[..|actions| - 1]);
      StepIsSound(Run(actions[..|actions| - 1]), actions[|actions| - 1]);
    }
  }

  /**
   In every interleaving: at most one callback of an action ever runs (a typing's stop once, a reaction's
   complete or its expire but not both), and a registered action is either live or consumed.
   */
  lemma CallbacksRunOnce(actions: seq<Action>, id: string)
    ensures var s := Run(actions);
      && CountIf(s.fired, Of(id)) <= 1
      && (CountIf(s.fired, Of(id)) == 1 ==>
          id !in s.typings && id !in s.reactions && forall t <- s.threads :: !Holds(t, id))
      && (id in s.registered <==> (id in s.typings || id in s.reactions || id in s.consumed))
      && !(id in s.consumed && (id in s.typings || id in s.reactions))
  {
    RunIsSound(actions);
    var s := Run(actions);
    assert Tracked(s, id);
    if CountIf(s.fired, Of(id)) == 1 {
      CountedHolds(s.threads, id);
    }
  }

  /** The id an allocation returns was never in a table, a thread or a callback before. */
  lemma IDsAreNeverReused(actions: seq<Action>, kind: Kind, nanos: nat)
    ensures var s := Run(actions); var id := ActionID(kind, nanos, s.nextID + 1);
      Places(s, id) == 0 && id !in s.registered && id !in s.consumed
  {
    RunIsSound(actions);
    var s := Run(actions);
    NextIDIsNew(kind, nanos, s.nextID);
    assert Tracked(s, ActionID(kind, nanos, s.nextID + 1));
  }

  // ---- Which callback runs ----

  /**
   In state s the action calls for this callback: a stop for stopping a live typing or sweeping one past 5 minutes,
   a complete for completing a live reaction, an expire for not completing one or sweeping one past 30 minutes.
   */
  predicate CallsFor(s: State, a: Action, c: Callback)
  {
    match c
    case StopTypingOf(id) =>
      && id in s.typings && s.typings[id].hasStop
      && (a == StopTyping(id) || (a.Sweep? && a.now - s.typings[id].createdAt > 5 * 60 * 1_000_000_000))
    case CompleteOf(id) =>
      id in s.reactions && s.reactions[id].hasComplete && a == ApplyReaction(id, true)
    case ExpireOf(id) =>
      && id in s.reactions && s.reactions[id].hasExpire
      && (a == ApplyReaction(id, false) || (a.Sweep? && a.now - s.reactions[id].createdAt > 30 * 60 * 1_000_000_000))
  }

  ghost predicate WasCalledFor(actions: seq<Action>, c: Callback)
  {
    exists p :: 0 <= p < |actions| && CallsFor(Run(actions[..p]), actions[p], c)
  }

  predicate IsHeld(s: State, c: Callback)
  {
    c in s.fired || exists i :: 0 <= i < |s.threads| && s.threads[i].Firing? && c in s.threads[i].callbacks
  }

  /** A step holds a callback that it calls for, and holds no other that was not held before. */
  lemma StepHolds(s: State, a: Action, c: Callback)
    ensures CallsFor(s, a, c) ==> IsHeld(Step(s, a), c)
    ensures IsHeld(Step(s, a), c) ==> IsHeld(s, c) || CallsFor(s, a, c)
  {
    var after := Step(s, a);
    if CallsFor(s, a, c) {
      assert after.threads[|s.threads|].Firing? && c in after.threads[|s.threads|].callbacks;
    }
  }

  /** In every interleaving, each callback that ran, or that some thread will run, was called for. */
  lemma {:induction false} CallbacksWereCalledFor(actions: seq<Action>, c: Callback)
    requires IsHeld(Run(actions), c)
    ensures WasCalledFor(actions, c)
  {
    if actions != [] {
      var n := |actions| - 1;
      StepHolds(Run(actions[..n]), actions[n], c);
      hide Step;
      hide IsHeld;
      if CallsFor(Run(actions[..n]), actions[n], c) {
      } else {
        CallbacksWereCalledFor(actions[..n], c);
        var p :| 0 <= p < n && CallsFor(Run(actions[..n][..p]), actions[..n][p], c);
        assert actions[..n][..p] == actions[..p];
      }
    }
  }

  /** A registration makes the entry that was allocated, at its own time. */
  lemma RegisterTells(s: State, i: nat, now: int)
    requires i < |s.threads|
    ensures var t, after := s.threads[i], Step(s, Register(i, now));
      && (t.RegisteringTyping? ==> after.typings == s.typings[t.id := TypingEntry(t.hasStop, now)])
      && (t.RegisteringReaction? ==>
            after.reactions == s.reactions[t.id := ReactionEntry(t.hasComplete, t.hasExpire, now)])
  {
  }
}
