/** The runtime's typing and reaction methods, and the all-or-nothing preparation of an inbound message. */
module ChannelPrepare {
  import opened Sequences
  import opened Text
  import opened ChannelActions

  /** What a capability of the platform does; a failure may say that the capability is unsupported. */
  datatype Outcome<T> = Works(value: T) | Fails(unsupported: bool)

  predicate HardFails<T>(outcome: Outcome<T>)
  {
    outcome.Fails? && !outcome.unsupported
  }

  datatype Preparation = Preparation(targetID: string, messageID: string, reaction: string, placeholder: string)

  datatype Receipt = Receipt(typingActionID: string, reactionActionID: string, placeholderMessageID: string)

  predicate WantsTyping(p: Preparation)
  {
    p.targetID != ""
  }

  predicate WantsReaction(p: Preparation)
  {
    p.reaction != "" && p.messageID != "" && p.targetID != ""
  }

  predicate WantsPlaceholder(p: Preparation)
  {
    p.placeholder != "" && p.targetID != ""
  }

  datatype ReactionCalls = ReactionCalls(hasComplete: bool, hasExpire: bool)

  datatype Cleanup = StopIt(id: string) | ExpireIt(id: string)

  /** The live actions and the callbacks that have run. */
  datatype Live = Live(typings: map<string, TypingEntry>, reactions: map<string, ReactionEntry>, fired: seq<Callback>)

  function AfterStop(live: Live, id: string): Live
  {
    Live(live.typings - {id}, live.reactions,
         if id in live.typings && live.typings[id].hasStop then live.fired + [StopTypingOf(id)] else live.fired)
  }

  function AfterApply(live: Live, id: string, complete: bool): Live
  {
    Live(live.typings, live.reactions - {id},
         if id !in live.reactions then live.fired
         else if complete then (if live.reactions[id].hasComplete then live.fired + [CompleteOf(id)] else live.fired)
         else if live.reactions[id].hasExpire then live.fired + [ExpireOf(id)] else live.fired)
  }

  function AfterUndoing(live: Live, c: Cleanup): Live
  {
    match c
    case StopIt(id) => AfterStop(live, id)
    case ExpireIt(id) => AfterApply(live, id, false)
  }

  /** The effect of the cleanup list, in its order. */
  function AfterCleanup(live: Live, cleanup: seq<Cleanup>): Live
  {
    if cleanup == [] then live
    else
      AfterUndoing(AfterCleanup(live, cleanup[..|cleanup| - 1]), cleanup[|cleanup| - 1])
  }

  /** The entry an action id that starting a typing or a reaction registers. */
  function WithTyping(live: Live, id: string, hasStop: bool, now: int): Live
  {
    live.(typings := live.typings[id := TypingEntry(hasStop, now)])
  }

  function WithReaction(live: Live, id: string, calls: ReactionCalls, now: int): Live
  {
    live.(reactions := live.reactions[id := ReactionEntry(calls.hasComplete, calls.hasExpire, now)])
  }

  class Repository {
    var nextID: nat
    var typings: map<string, TypingEntry>
    var reactions: map<string, ReactionEntry>
    var fired: seq<Callback>

    function Contents(): Live
      reads this
    {
      Live(typings, reactions, fired)
    }

    ghost predicate Valid()
      reads this
    {
      && (forall id <- typings :: IssuedBefore(id, nextID))
      && (forall id <- reactions :: IssuedBefore(id, nextID))
      && typings.Keys !! reactions.Keys
    }

    constructor ()
      ensures Valid() && nextID == 0 && Contents() == Live(map[], map[], [])
    {
      nextID, typings, reactions, fired := 0, map[], map[], [];
    }

    method NewActionID(kind: Kind, nanos: nat) returns (id: string)
      requires Valid()
      modifies this`nextID
      ensures Valid() && nextID == old(nextID) + 1 && id == ActionID(kind, nanos, nextID)
      ensures id !in typings && id !in reactions && IssuedBefore(id, nextID)
    {
      NextIDIsNew(kind, nanos, nextID);
      IssuedStays(nextID);
      nextID := nextID + 1;
      id := KindName(kind) + "-" + Decimal(nanos) + "-" + Decimal(nextID);
    }

    method StartTyping(platform: Outcome<bool>, nanos: nat, now: int) returns (result: Outcome<string>)
      requires Valid()
      modifies this`nextID, this`typings
      ensures Valid()
      ensures platform.Fails? ==>
        result == Fails(platform.unsupported) && typings == old(typings) && nextID == old(nextID)
      ensures platform.Works? ==>
        var id := ActionID(Typing, nanos, old(nextID) + 1);
        && result == Works(id) && nextID == old(nextID) + 1
        && id !in old(typings) && id !in reactions
        && Contents() == WithTyping(old(Contents()), id, platform.value, now)
        && typings == old(typings)[id := TypingEntry(platform.value, now)]
    {
      if platform.Fails? {
        return Fails(platform.unsupported);
      }
      var id := NewActionID(Typing, nanos);
      typings := typings[id := TypingEntry(platform.value, now)];
      result := Works(id);
    }

    method StopTyping(id: string) returns (ok: bool)
      requires Valid()
      modifies this`typings, this`fired
      ensures Valid()
      ensures ok <==> id in old(typings)
      ensures Contents() == AfterStop(old(Contents()), id)
      ensures typings == old(typings) - {id}
      ensures fired == old(fired) + if ok && old(typings)[id].hasStop then [StopTypingOf(id)] else []
    {
      ok := id in typings;
      var stops := ok && typings[id].hasStop;
      typings := typings - {id};
      if stops {
        fired := fired + [StopTypingOf(id)];
      }
    }

    method ReactToMessage(platform: Outcome<ReactionCalls>, nanos: nat, now: int) returns (result: Outcome<string>)
      requires Valid()
      modifies this`nextID, this`reactions
      ensures Valid()
      ensures platform.Fails? ==>
        result == Fails(platform.unsupported) && reactions == old(reactions) && nextID == old(nextID)
      ensures platform.Works? ==>
        var id := ActionID(Reaction, nanos, old(nextID) + 1);
        && result == Works(id) && nextID == old(nextID) + 1
        && id !in typings && id !in old(reactions)
        && Contents() == WithReaction(old(Contents()), id, platform.value, now)
        && reactions
           == old(reactions)[id := ReactionEntry(platform.value.hasComplete, platform.value.hasExpire, now)]
    {
      if platform.Fails? {
        return Fails(platform.unsupported);
      }
      var id := NewActionID(Reaction, nanos);
      reactions := reactions[id := ReactionEntry(platform.value.hasComplete, platform.value.hasExpire, now)];
      result := Works(id);
    }

    method ApplyReaction(id: string, complete: bool) returns (ok: bool)
      requires Valid()
      modifies this`reactions, this`fired
      ensures Valid()
      ensures ok <==> id in old(reactions)
      ensures Contents() == AfterApply(old(Contents()), id, complete)
      ensures reactions == old(reactions) - {id}
      ensures fired == old(fired)
        + if ok && complete && old(reactions)[id].hasComplete then [CompleteOf(id)]
          else if ok && !complete && old(reactions)[id].hasExpire then [ExpireOf(id)] else []
    {
      if id !in reactions {
        assert reactions - {id} == reactions;
        return false;
      }
      var action := reactions[id];
      reactions := reactions - {id};
      if complete {
        if action.hasComplete {
          fired := fired + [CompleteOf(id)];
        }
      } else if action.hasExpire {
        fired := fired + [ExpireOf(id)];
      }
      return true;
    }

    method CleanUp(cleanup: seq<Cleanup>)
      requires Valid()
      modifies this`typings, this`reactions, this`fired
      ensures Valid() && Contents() == AfterCleanup(old(Contents()), cleanup)
    {
      ghost var before := Contents();
      var i := 0;
      while i < |cleanup|
        invariant i <= |cleanup| && Valid()
        invariant Contents() == AfterCleanup(before, cleanup[..i])
      {
        assert cleanup[..i + 1][..i] == cleanup[..i];
        match cleanup[i] {
          case StopIt(id) => var _ := StopTyping(id);
          case ExpireIt(id) => var _ := ApplyReaction(id, false);
        }
        i := i + 1;
      }
      assert cleanup[..|cleanup|] == cleanup;
    }

    /**
     Starts what the message asks for. An error undoes everything: the live actions are as before, and each
     action that was started has had its stop or expire run once. Success leaves live exactly the actions
     the receipt names, and runs nothing.
     */
    method PrepareInbound(p: Preparation, typing: Outcome<bool>, reaction: Outcome<ReactionCalls>,
                          placeholder: Outcome<string>, nanos: nat, now: int)
      returns (receipt: Receipt, ok: bool)
      requires Valid()
      modifies this`nextID, this`typings, this`reactions, this`fired
      ensures Valid()
      ensures ok <==> !(WantsTyping(p) && HardFails(typing)) && !(WantsReaction(p) && HardFails(reaction))
                      && !(WantsPlaceholder(p) && HardFails(placeholder))
      ensures Contents() == Prepared(old(Contents()), receipt, typing, reaction, ok, now)
      ensures receipt.typingActionID
              == (if WantsTyping(p) && typing.Works? then ActionID(Typing, nanos, old(nextID) + 1) else "")
      ensures receipt.typingActionID !in old(typings) && receipt.reactionActionID !in old(reactions)
      ensures receipt.reactionActionID != "" <==>
        WantsReaction(p) && reaction.Works? && !(WantsTyping(p) && HardFails(typing))
      ensures ok ==>
        receipt.placeholderMessageID == (if WantsPlaceholder(p) && placeholder.Works? then placeholder.value else "")
      ensures ok ==> fired == old(fired)
      ensures ok ==>
        && typings == (if p.targetID != "" && typing.Works?
                       then old(typings)[receipt.typingActionID := TypingEntry(typing.value, now)] else old(typings))
        && reactions == (if p.reaction != "" && p.messageID != "" && p.targetID != "" && reaction.Works?
                         then old(reactions)[receipt.reactionActionID :=
                                ReactionEntry(reaction.value.hasComplete, reaction.value.hasExpire, now)]
                         else old(reactions))
      ensures !ok ==> typings == old(typings) && reactions == old(reactions)
      ensures !ok ==>
        fired == (old(fired)
                  + (if p.targetID != "" && typing.Works? && typing.value
                     then [StopTypingOf(receipt.typingActionID)] else [])
                  + (if receipt.reactionActionID != "" && reaction.value.hasExpire
                     then [ExpireOf(receipt.reactionActionID)] else []))
      ensures !ok <==>
        || (p.targetID != "" && typing.Fails? && !typing.unsupported)
        || (p.reaction != "" && p.messageID != "" && p.targetID != "" && reaction.Fails? && !reaction.unsupported)
        || (p.placeholder != "" && p.targetID != "" && placeholder.Fails? && !placeholder.unsupported)
    {
      hide AfterCleanup;
      ghost var before := Contents();
      var typingID, failed := TryTyping(p, typing, nanos, now);
      if failed {
        return Receipt("", "", ""), false;
      }
      var cleanup: seq<Cleanup> := if typingID == "" then [] else [StopIt(typingID)];
      ghost var mid := Contents();
      var reactionID, failedToo := TryReaction(p, reaction, nanos, now);
      if failedToo {
        UndoTyping(before, mid, Contents(), typingID, typing, now);
        assert cleanup == CleanupFor(typingID, "");
        CleanUp(cleanup);
        return Receipt(typingID, "", ""), false;
      }
      cleanup := cleanup + (if reactionID == "" then [] else [ExpireIt(reactionID)]);
      var placeholderID := "";
      if p.placeholder != "" && p.targetID != "" {
        if placeholder.Fails? && !placeholder.unsupported {
          UndoBoth(before, mid, Contents(), typingID, reactionID, typing, reaction, now);
          assert cleanup == CleanupFor(typingID, reactionID);
          CleanUp(cleanup);
          return Receipt(typingID, reactionID, ""), false;
        }
        if placeholder.Works? {
          placeholderID := placeholder.value;
        }
      }
      return Receipt(typingID, reactionID, placeholderID), true;
    }

    /** Starts typing if the message has a target; an unsupported capability is not a failure. */
    method TryTyping(p: Preparation, typing: Outcome<bool>, nanos: nat, now: int) returns (id: string, failed: bool)
      requires Valid()
      modifies this`nextID, this`typings
      ensures Valid()
      ensures TypingStarted(old(Contents()), Contents(), id, typing, now)
      ensures id == if WantsTyping(p) && typing.Works? then ActionID(Typing, nanos, old(nextID) + 1) else ""
      ensures failed <==> WantsTyping(p) && HardFails(typing)
      ensures id !in old(typings)
    {
      EmptyIsNoID(nextID);
      if p.targetID != "" {
        var started := StartTyping(typing, nanos, now);
        if started.Works? {
          return started.value, false;
        } else if !started.unsupported {
          return "", true;
        }
      }
      return "", false;
    }

    method TryReaction(p: Preparation, reaction: Outcome<ReactionCalls>, nanos: nat, now: int)
      returns (id: string, failed: bool)
      requires Valid()
      modifies this`nextID, this`reactions
      ensures Valid()
      ensures ReactionStarted(old(Contents()), Contents(), id, reaction, now)
      ensures id != "" <==> WantsReaction(p) && reaction.Works?
      ensures failed <==> WantsReaction(p) && HardFails(reaction)
      ensures id !in old(reactions)
    {
      EmptyIsNoID(nextID);
      if p.reaction != "" && p.messageID != "" && p.targetID != "" {
        var started := ReactToMessage(reaction, nanos, now);
        if started.Works? {
          return started.value, false;
        } else if !started.unsupported {
          return "", true;
        }
      }
      return "", false;
    }

    /** The janitor's pass over both tables, and the callbacks it then runs. */
    method SweepActions(now: int) returns (ran: seq<Callback>)
      requires Valid()
      modifies this`typings, this`reactions, this`fired
      ensures Valid()
      ensures typings == old(typings) - StaleTypings(old(typings), now)
      ensures reactions == old(reactions) - StaleReactions(old(reactions), now)
      ensures fired == old(fired) + ran
      ensures (set c | c in ran) == SweptCallbacks(old(typings), old(reactions), now)
      ensures forall i, j :: 0 <= i < j < |ran| ==> ran[i] != ran[j]
    {
      var stops := SweepTypings(now);
      var expires := SweepReactions(now);
      assert forall i :: 0 <= i < |stops| ==> stops[i] in stops;
      assert forall i :: 0 <= i < |expires| ==> expires[i] in expires;
      ran := stops + expires;
      fired := fired + ran;
    }

    method SweepTypings(now: int) returns (stops: seq<Callback>)
      requires Valid()
      modifies this`typings
      ensures Valid()
      ensures typings == old(typings) - StaleTypings(old(typings), now)
      ensures forall id :: id in typings <==>
        id in old(typings) && now - old(typings)[id].createdAt <= 5 * 60 * 1_000_000_000
      ensures forall c <- stops :: c.StopTypingOf?
      ensures forall id ::
                StopTypingOf(id) in stops <==> id in StaleTypings(old(typings), now) && old(typings)[id].hasStop
      ensures forall i, j :: 0 <= i < j < |stops| ==> stops[i] != stops[j]
    {
      hide IssuedBefore;
      ghost var before := typings;
      var remaining := typings.Keys;
      stops := [];
      while remaining != {}
        invariant remaining <= before.Keys
        invariant typings.Keys <= before.Keys && forall id <- typings :: typings[id] == before[id]
        invariant forall id <- before :: id in typings <==> id in remaining || id !in StaleTypings(before, now)
        invariant forall c <- stops :: c.StopTypingOf?
        invariant forall id ::
                    StopTypingOf(id) in stops <==> id in StaleTypings(before, now) - remaining && before[id].hasStop
        invariant forall i, j :: 0 <= i < j < |stops| ==> stops[i] != stops[j]
        decreases remaining
      {
        var id :| id in remaining;
        assert StopTypingOf(id) !in stops;
        if now - typings[id].createdAt > TYPING_LIFE {
          if typings[id].hasStop {
            stops := stops + [StopTypingOf(id)];
          }
          typings := typings - {id};
        }
        remaining := remaining - {id};
      }
    }

    method SweepReactions(now: int) returns (expires: seq<Callback>)
      requires Valid()
      modifies this`reactions
      ensures Valid()
      ensures reactions == old(reactions) - StaleReactions(old(reactions), now)
      ensures forall id :: id in reactions <==>
        id in old(reactions) && now - old(reactions)[id].createdAt <= 30 * 60 * 1_000_000_000
      ensures forall c <- expires :: c.ExpireOf?
      ensures forall id ::
                ExpireOf(id) in expires <==> id in StaleReactions(old(reactions), now) && old(reactions)[id].hasExpire
      ensures forall i, j :: 0 <= i < j < |expires| ==> expires[i] != expires[j]
    {
      hide IssuedBefore;
      ghost var before := reactions;
      var remaining := reactions.Keys;
      expires := [];
      while remaining != {}
        invariant remaining <= before.Keys
        invariant reactions.Keys <= before.Keys && forall id <- reactions :: reactions[id] == before[id]
        invariant forall id <- before :: id in reactions <==> id in remaining || id !in StaleReactions(before, now)
        invariant forall c <- expires :: c.ExpireOf?
        invariant forall id ::
                    ExpireOf(id) in expires <==> id in StaleReactions(before, now) - remaining && before[id].hasExpire
        invariant forall i, j :: 0 <= i < j < |expires| ==> expires[i] != expires[j]
        decreases remaining
      {
        var id :| id in remaining;
        assert ExpireOf(id) !in expires;
        if now - reactions[id].createdAt > REACTION_LIFE {
          if reactions[id].hasExpire {
            expires := expires + [ExpireOf(id)];
          }
          reactions := reactions - {id};
        }
        remaining := remaining - {id};
      }
    }
  }

  lemma IssuedStays(counter: nat)
    ensures forall id :: IssuedBefore(id, counter) ==> IssuedBefore(id, counter + 1)
  {
    forall id | IssuedBefore(id, counter) ensures IssuedBefore(id, counter + 1) {
      var k, t: nat, n: nat :| n <= counter && id == ActionID(k, t, n);
      assert n <= counter + 1 && id == ActionID(k, t, n);
    }
  }

  lemma EmptyIsNoID(counter: nat)
    ensures !IssuedBefore("", counter)
  {
  }

  /**
   What preparation leaves, told by its receipt: on success the named actions are added, on error they are gone
   and undone.
   */
  function Prepared(before: Live, receipt: Receipt, typing: Outcome<bool>, reaction: Outcome<ReactionCalls>, ok: bool,
                    now: int): Live
  {
    var typed := receipt.typingActionID != "" && typing.Works?;
    var reacted := receipt.reactionActionID != "" && reaction.Works?;
    if ok then
      var one := if typed then WithTyping(before, receipt.typingActionID, typing.value, now) else before;
      if reacted then WithReaction(one, receipt.reactionActionID, reaction.value, now) else one
    else
      before.(fired := before.fired
        + (if typed && typing.value then [StopTypingOf(receipt.typingActionID)] else [])
        + (if reacted && reaction.value.hasExpire then [ExpireOf(receipt.reactionActionID)] else []))
  }

  ghost predicate TypingStarted(before: Live, mid: Live, id: string, typing: Outcome<bool>, now: int)
  {
    if id == "" then mid == before
    else
      && typing.Works? && id !in before.typings && id !in before.reactions
      && mid == WithTyping(before, id, typing.value, now)
  }

  ghost predicate ReactionStarted(mid: Live, both: Live, id: string, reaction: Outcome<ReactionCalls>, now: int)
  {
    if id == "" then both == mid
    else reaction.Works? && id !in mid.reactions && both == WithReaction(mid, id, reaction.value, now)
  }

  function CleanupFor(typingID: string, reactionID: string): seq<Cleanup>
  {
    (if typingID == "" then [] else [StopIt(typingID)]) + (if reactionID == "" then [] else [ExpireIt(reactionID)])
  }

  lemma CleanupAppend(live: Live, cleanup: seq<Cleanup>, last: Cleanup)
    ensures AfterCleanup(live, cleanup + [last]) == AfterUndoing(AfterCleanup(live, cleanup), last)
  {
    assert (cleanup + [last])[..|cleanup|] == cleanup;
  }

  /** Stopping the typing just started, whatever reactions are live by then. */
  lemma UndoTyping(before: Live, mid: Live, both: Live, id: string, typing: Outcome<bool>, now: int)
    requires TypingStarted(before, mid, id, typing, now) && both == mid.(reactions := both.reactions)
    ensures AfterCleanup(both, CleanupFor(id, ""))
            == before.(reactions := both.reactions,
                       fired := before.fired + (if id != "" && typing.value then [StopTypingOf(id)] else []))
  {
    if id != "" {
      CleanupAppend(both, [], StopIt(id));
      assert CleanupFor(id, "") == [] + [StopIt(id)];
      assert mid.typings - {id} == before.typings;
    }
  }

  lemma UndoBoth(before: Live, mid: Live, both: Live, typingID: string, reactionID: string,
                 typing: Outcome<bool>, reaction: Outcome<ReactionCalls>, now: int)
    requires TypingStarted(before, mid, typingID, typing, now) && ReactionStarted(mid, both, reactionID, reaction, now)
    ensures AfterCleanup(both, CleanupFor(typingID, reactionID)) == before.(fired := before.fired
      + (if typingID != "" && typing.value then [StopTypingOf(typingID)] else [])
      + (if reactionID != "" && reaction.value.hasExpire then [ExpireOf(reactionID)] else []))
  {
    UndoTyping(before, mid, both, typingID, typing, now);
    var typed := CleanupFor(typingID, "");
    var one := AfterCleanup(both, typed);
    if reactionID == "" {
      assert CleanupFor(typingID, reactionID) == typed;
    } else {
      assert CleanupFor(typingID, reactionID) == typed + [ExpireIt(reactionID)];
      CleanupAppend(both, typed, ExpireIt(reactionID));
      UndoReaction(before, one, reactionID, reaction, now);
    }
  }

  /** Expiring the reaction just started, once the typing is undone. */
  lemma UndoReaction(before: Live, one: Live, id: string, reaction: Outcome<ReactionCalls>, now: int)
    requires reaction.Works? && id !in before.reactions
    requires one.reactions
             == before.reactions[id := ReactionEntry(reaction.value.hasComplete, reaction.value.hasExpire, now)]
    ensures AfterUndoing(one, ExpireIt(id))
            == one.(reactions := before.reactions,
                    fired := one.fired + (if reaction.value.hasExpire then [ExpireOf(id)] else []))
  {
    assert one.reactions - {id} == before.reactions;
  }
}
