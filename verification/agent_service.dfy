/** AgentCore's event log and its subscribers, as the service keeps them. */
module AgentService {
  import opened Sequences
  import opened Text
  import opened TaskEvents

  const CHANNEL_CAPACITY: nat := 16

  /** The log of one task as the store writes it: sequences 1..n and the ids made from them. */
  predicate Dense(taskID: string, log: seq<TaskEvent>)
  {
    forall i :: 0 <= i < |log| ==>
      log[i].taskID == taskID && log[i].sequence == i + 1 && log[i].eventID == EventID(taskID, i + 1)
  }

  /** The event the store appends for a draft: the next sequence, and the id made from it. */
  function Stamp(taskID: string, log: seq<TaskEvent>, draft: TaskEvent): TaskEvent
  {
    draft.(taskID := taskID, sequence := |log| + 1, eventID := EventID(taskID, |log| + 1))
  }

  /** The part of a dense log a cursor has not seen. */
  function EventsAfter(log: seq<TaskEvent>, after: int): seq<TaskEvent>
  {
    if after <= 0 then log else if after >= |log| then [] else log[after..]
  }

  /** A non-blocking send to a subscriber's channel. */
  function Offer(buffer: seq<TaskEvent>, e: TaskEvent): seq<TaskEvent>
  {
    if |buffer| < CHANNEL_CAPACITY then buffer + [e] else buffer
  }

  /** The receive loop passes over an event that its cursor has reached. */
  predicate Skips(last: int, e: TaskEvent)
  {
    0 < e.sequence <= last
  }

  function Advance(last: int, e: TaskEvent): int
  {
    if e.sequence > last then e.sequence else last
  }

  /** What the receive loop sends of a channel's contents, leaving terminal events aside. */
  function Accepted(last: int, buffer: seq<TaskEvent>): seq<TaskEvent>
    decreases |buffer|
  {
    if buffer == [] then []
    else if Skips(last, buffer[0]) then Accepted(last, buffer[1..])
    else [buffer[0]] + Accepted(Advance(last, buffer[0]), buffer[1..])
  }

  /** A subscription ends with the first terminal event. */
  function UpToTerminal(events: seq<TaskEvent>): seq<TaskEvent>
  {
    if events == [] then []
    else if IsTerminalEvent(events[0].state) then [events[0]]
    else [events[0]] + UpToTerminal(events[1..])
  }

  function Log(byTask: map<string, seq<TaskEvent>>, taskID: string): seq<TaskEvent>
  {
    if taskID in byTask then byTask[taskID] else []
  }

  class EventStore {
    var byTask: map<string, seq<TaskEvent>>

    ghost predicate Valid()
      reads this
    {
      forall taskID <- byTask :: Dense(taskID, byTask[taskID])
    }

    constructor ()
      ensures Valid() && byTask == map[]
    {
      byTask := map[];
    }

    method Append(draft: TaskEvent) returns (event: TaskEvent)
      requires Valid()
      modifies this
      ensures Valid()
      ensures event == Stamp(draft.taskID, Log(old(byTask), draft.taskID), draft)
      ensures byTask == old(byTask)[draft.taskID := Log(old(byTask), draft.taskID) + [event]]
      ensures event.sequence == |Log(old(byTask), draft.taskID)| + 1
      ensures event.eventID == draft.taskID + "-" + Decimal(event.sequence)
      ensures event == draft.(sequence := event.sequence, eventID := event.eventID)
    {
      var items := Log(byTask, draft.taskID);
      event := draft.(sequence := |items| + 1, eventID := EventID(draft.taskID, |items| + 1));
      items := items + [event];
      byTask := byTask[draft.taskID := items];
    }

    /** The loop over the task's events keeps exactly the unseen end of the log. */
    method List(taskID: string, after: int) returns (result: seq<TaskEvent>)
      requires Valid()
      ensures result == EventsAfter(Log(byTask, taskID), after)
      ensures forall e :: e in result <==> e in Log(byTask, taskID) && e.sequence > after
      ensures forall i, j :: 0 <= i < j < |result| ==> result[i].sequence < result[j].sequence
    {
      var items := Log(byTask, taskID);
      result := [];
      for i := 0 to |items|
        invariant result == EventsAfter(items[..i], after)
      {
        if items[i].sequence > after {
          result := result + [items[i]];
        }
        assert items[..i + 1] == items[..i] + [items[i]];
      }
      assert items[..|items|] == items;
    }
  }

  type Channels = map<nat, seq<TaskEvent>>

  function Listeners(subscribers: map<string, Channels>, taskID: string): Channels
  {
    if taskID in subscribers then subscribers[taskID] else map[]
  }

  class Service {
    const store: EventStore
    var subscribers: map<string, Channels>
    var lastEvents: map<string, TaskEvent>     // the terminal event of each task that has one
    var nextChannel: nat

    ghost predicate Valid()
      reads this, store
    {
      && store.Valid()
      && (forall taskID <- subscribers :: forall ch <- subscribers[taskID] ::
            ch < nextChannel && |subscribers[taskID][ch]| <= CHANNEL_CAPACITY)
    }

    constructor (store: EventStore)
      requires store.Valid()
      ensures Valid() && this.store == store && subscribers == map[] && lastEvents == map[]
    {
      this.store := store;
      subscribers, lastEvents := map[], map[];
      nextChannel := 0;
    }

    /** The second step of publish: offer a recorded event to every channel of its task. */
    method Push(event: TaskEvent)
      requires Valid()
      modifies this`subscribers, this`lastEvents
      ensures Valid()
      ensures lastEvents == if event.state == Final || event.state == Failed
                            then old(lastEvents)[event.taskID := event] else old(lastEvents)
      ensures event.taskID !in old(subscribers) ==> subscribers == old(subscribers)
      ensures event.taskID in old(subscribers) ==>
        var listeners := old(subscribers)[event.taskID];
        subscribers == old(subscribers)[event.taskID := map ch | ch in listeners :: Offer(listeners[ch], event)]
    {
      if IsTerminalEvent(event.state) {
        lastEvents := lastEvents[event.taskID := event];
      }
      if event.taskID !in subscribers {
        return;
      }
      var listeners := subscribers[event.taskID];
      var remaining := listeners.Keys;
      var updated := listeners;
      while remaining != {}
        invariant remaining <= listeners.Keys == updated.Keys
        invariant forall ch <- listeners ::
                    updated[ch] == if ch in remaining then listeners[ch] else Offer(listeners[ch], event)
        decreases |remaining|
      {
        var ch :| ch in remaining;
        remaining := remaining - {ch};
        if |updated[ch]| < CHANNEL_CAPACITY {
          updated := updated[ch := updated[ch] + [event]];
        }
      }
      assert updated == map ch | ch in listeners :: Offer(listeners[ch], event);
      subscribers := subscribers[event.taskID := updated];
    }

    /** Record the event, then announce it; an event the store refuses is not announced. */
    method Publish(draft: TaskEvent, storeFails: bool) returns (ok: bool)
      requires Valid()
      modifies this`subscribers, this`lastEvents, store
      ensures Valid()
      ensures ok <==> IsBlank(draft.taskID) || !storeFails
      ensures IsBlank(draft.taskID) || storeFails ==>
        store.byTask == old(store.byTask) && subscribers == old(subscribers) && lastEvents == old(lastEvents)
      ensures !IsBlank(draft.taskID) && ok ==>
        var event := Stamp(draft.taskID, Log(old(store.byTask), draft.taskID), draft);
        && store.byTask == old(store.byTask)[draft.taskID := Log(old(store.byTask), draft.taskID) + [event]]
        && Listeners(subscribers, draft.taskID) ==
           (var before := Listeners(old(subscribers), draft.taskID); map ch | ch in before :: Offer(before[ch], event))
        && (forall other :: other != draft.taskID ==>
            Listeners(subscribers, other) == Listeners(old(subscribers), other))
        && lastEvents
           == if IsTerminalEvent(event.state) then old(lastEvents)[draft.taskID := event] else old(lastEvents)
    {
      if IsBlank(draft.taskID) {
        return true;
      }
      if storeFails {
        return false;
      }
      var event := store.Append(draft);
      Push(event);
      ok := true;
    }

    /**
     Register a channel holding the replay; None when the replay does not fit the channel and the call never
     returns.
     */
    method Subscribe(taskID: string, after: int) returns (channel: Option<nat>)
      requires Valid()
      modifies this`subscribers, this`nextChannel
      ensures Valid()
      ensures var replay := EventsAfter(Log(store.byTask, taskID), after);
        if |replay| <= CHANNEL_CAPACITY then
          && channel == Some(old(nextChannel))
          && subscribers == old(subscribers)[taskID := Listeners(old(subscribers), taskID)[old(nextChannel) := replay]]
        else channel == None && subscribers == old(subscribers)
    {
      var replay := store.List(taskID, after);
      if |replay| > CHANNEL_CAPACITY {
        return None;
      }
      var ch := nextChannel;
      nextChannel := nextChannel + 1;
      var listeners := Listeners(subscribers, taskID);
      subscribers := subscribers[taskID := listeners[ch := replay]];
      channel := Some(ch);
    }

    method Cancel(taskID: string, ch: nat)
      requires Valid()
      modifies this`subscribers
      ensures Valid()
      ensures Listeners(subscribers, taskID) == Listeners(old(subscribers), taskID) - {ch}
      ensures forall other :: other != taskID ==> Listeners(subscribers, other) == Listeners(old(subscribers), other)
    {
      if taskID in subscribers {
        var listeners := subscribers[taskID] - {ch};
        if listeners == map[] {
          subscribers := subscribers - {taskID};
        } else {
          subscribers := subscribers[taskID := listeners];
        }
      }
    }

    /** The receive loop of SubscribeTaskEvents over what its channel yields. */
    method Receive(channel: seq<TaskEvent>, after: int) returns (sent: seq<TaskEvent>, ended: bool)
      ensures sent == UpToTerminal(Accepted(after, channel))
      ensures ended <==> sent != [] && IsTerminalEvent(sent[|sent| - 1].state)
    {
      hide UpToTerminal;
      var last, i := after, 0;
      sent := [];
      assert channel[0..] == channel;
      while i < |channel|
        invariant i <= |channel|
        invariant forall e <- sent :: !IsTerminalEvent(e.state)
        invariant Accepted(after, channel) == sent + Accepted(last, channel[i..])
      {
        var event := channel[i];
        assert channel[i..][0] == event && channel[i..][1..] == channel[i + 1..];
        i := i + 1;
        if event.sequence > 0 && event.sequence <= last {
          continue;
        }
        if event.sequence > last {
          last := event.sequence;
        }
        ghost var rest := Accepted(last, channel[i..]);
        StopsAt(sent, event, rest);
        assert sent + ([event] + rest) == sent + [event] + rest;
        sent := sent + [event];
        if IsTerminalEvent(event.state) {
          return sent, true;
        }
      }
      NoTerminal(sent);
      assert sent + [] == sent;
      ended := false;
    }
  }

  /** A channel with room for 16 takes the event last; a full one loses it. */
  lemma OfferTells(buffer: seq<TaskEvent>, e: TaskEvent)
    ensures Offer(buffer, e) == if |buffer| < 16 then buffer + [e] else buffer
  {
  }

  /** A stream is cut after its first final or failed event, and nowhere else. */
  lemma {:induction false} UpToTerminalTells(events: seq<TaskEvent>)
    ensures var cut := UpToTerminal(events);
      && cut <= events
      && (forall i :: 0 <= i < |cut| - 1 ==> cut[i].state != Final && cut[i].state != Failed)
      && (|cut| < |events| ==> cut != [] && (cut[|cut| - 1].state == Final || cut[|cut| - 1].state == Failed))
  {
    if events != [] && !IsTerminalEvent(events[0].state) {
      UpToTerminalTells(events[1..]);
      assert UpToTerminal(events) == [events[0]] + UpToTerminal(events[1..]);
    }
  }

  lemma {:induction false} StopsAt(quiet: seq<TaskEvent>, e: TaskEvent, rest: seq<TaskEvent>)
    requires forall q <- quiet :: !IsTerminalEvent(q.state)
    ensures IsTerminalEvent(e.state) ==> UpToTerminal(quiet + [e] + rest) == quiet + [e]
  {
    var all := quiet + [e] + rest;
    if quiet != [] {
      assert all[1..] == quiet[1..] + [e] + rest;
      StopsAt(quiet[1..], e, rest);
    }
  }

  lemma {:induction false} NoTerminal(events: seq<TaskEvent>)
    requires forall e <- events :: !IsTerminalEvent(e.state)
    ensures UpToTerminal(events) == events
  {
    if events != [] {
      NoTerminal(events[1..]);
    }
  }
}
