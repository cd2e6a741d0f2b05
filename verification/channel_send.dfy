/** Idempotent enqueue: reservation, bounded queue and rollback, over runs with a janitor. */
module ChannelSend {
  import opened Sequences
  import opened Text
  import opened ChannelSplit
  import opened ChannelWorker

  /** Thirty minutes in nanoseconds. */
  const WINDOW: int := 30 * 60 * 1_000_000_000

  const SEPARATOR: char := '\U{001E}'

  datatype Reservation = Reservation(messageID: string, createdAt: int)

  datatype Queue = Queue(capacity: nat, items: seq<Outbound>)

  /** channels says which registered channels are enabled; queues holds the running workers' text queues. */
  datatype Store = Store(
    channels: map<string, bool>, queues: map<string, Queue>,
    idempotency: map<string, Reservation>, deliveries: map<string, DeliveryStatus>)

  datatype Receipt =
    | Accepted(messageID: string, acceptedAt: int)
    | Repeated(messageID: string, firstAcceptedAt: Option<int>, state: DeliveryState)
    | InvalidOutbound | UnknownChannel | DisabledChannel | Denied | NotRunning | Full

  function Slot(channelID: string, key: string): string
  {
    channelID + [SEPARATOR] + key
  }

  /** Distinct channels or keys get distinct slots while no channel id holds the separator. */
  lemma SlotIsInjective(c1: string, k1: string, c2: string, k2: string)
    requires SEPARATOR !in c1 && SEPARATOR !in c2 && Slot(c1, k1) == Slot(c2, k2)
    ensures c1 == c2 && k1 == k2
  {
    var s := Slot(c1, k1);
    assert s[|c1|] == SEPARATOR && s[|c2|] == SEPARATOR;
    assert forall i :: 0 <= i < |c1| ==> s[i] == c1[i];
    assert forall i :: 0 <= i < |c2| ==> s[i] == c2[i];
    assert s[..|c1|] == c1 && s[..|c2|] == c2 && s[|c1| + 1..] == k1 && s[|c2| + 1..] == k2;
  }

  /** A key as Send forms it: trimmed and not empty. */
  predicate IsKey(key: string)
  {
    key != "" && TrimSpace(key) == key
  }

  /** other is channelID, a separator, and then nothing or something that no trimming removes. */
  predicate ExtendsID(channelID: string, other: string)
  {
    && |channelID| < |other| && channelID <= other && other[|channelID|] == SEPARATOR
    && (|channelID| + 1 < |other| ==> !IsSpace(other[|channelID| + 1]))
  }

  lemma ShorterExtends(c1: string, k1: string, c2: string, k2: string)
    requires IsKey(k1) && |c1| < |c2| && Slot(c1, k1) == Slot(c2, k2)
    ensures ExtendsID(c1, c2)
  {
    var s, t := Slot(c1, k1), Slot(c2, k2);
    assert s[|c1|] == SEPARATOR && t[..|c2|] == c2 && s[..|c1|] == c1;
    assert c2[..|c1|] == c1;
    TrimmedEnds(k1);
    assert s[|c1| + 1] == k1[0];
  }

  lemma ExtensionCollides(c1: string, c2: string) returns (k1: string, k2: string)
    requires ExtendsID(c1, c2)
    ensures IsKey(k1) && IsKey(k2) && Slot(c1, k1) == Slot(c2, k2)
  {
    var rest := c2[|c1| + 1..];
    k1, k2 := rest + [SEPARATOR] + "x", "x";
    assert c2 == c1 + [SEPARATOR] + rest;
    assert k1[0] == if rest == "" then SEPARATOR else c2[|c1| + 1];
    EndsTrimmed(k1);
    EndsTrimmed(k2);
  }

  /** Two channels can share a slot exactly when the id of one extends the other's over a separator. */
  lemma ChannelsCollideIff(c1: string, c2: string)
    requires c1 != c2
    ensures (exists k1, k2 :: IsKey(k1) && IsKey(k2) && Slot(c1, k1) == Slot(c2, k2))
            <==> ExtendsID(c1, c2) || ExtendsID(c2, c1)
  {
    if k1, k2 :| IsKey(k1) && IsKey(k2) && Slot(c1, k1) == Slot(c2, k2) {
      assert Slot(c1, k1)[..|c1|] == c1 && Slot(c2, k2)[..|c2|] == c2;
      if |c1| < |c2| {
        ShorterExtends(c1, k1, c2, k2);
      } else if |c2| < |c1| {
        ShorterExtends(c2, k2, c1, k1);
      }
    }
    if ExtendsID(c1, c2) {
      var k1, k2 := ExtensionCollides(c1, c2);
    } else if ExtendsID(c2, c1) {
      var k2, k1 := ExtensionCollides(c2, c1);
    }
  }

  predicate Live(s: Store, slot: string, now: int)
  {
    slot in s.idempotency && now - s.idempotency[slot].createdAt <= WINDOW
  }

  predicate WellFormed(m: Outbound)
  {
    !IsBlank(m.channelID) && !IsBlank(m.targetID) && !IsBlank(m.content)
  }

  /** A message with the id Send gives it. */
  function Named(m: Outbound, generated: string): Outbound
  {
    if m.id == "" then m.(id := generated) else m
  }

  function KeyOf(m: Outbound): string
  {
    TrimSpace(m.idempotencyKey)
  }

  function SlotOf(m: Outbound): string
  {
    Slot(m.channelID, KeyOf(m))
  }

  /** The first critical section: find a live reservation or make one. */
  function Reserve(s: Store, m: Outbound, now: int): (Store, Option<Receipt>)
  {
    if KeyOf(m) == "" then (s, None)
    else if Live(s, SlotOf(m), now) then
      var previous := s.idempotency[SlotOf(m)];
      if previous.messageID in s.deliveries then
        var status := s.deliveries[previous.messageID];
        (s, Some(Repeated(previous.messageID, status.acceptedAt, status.state)))
      else
        (s, Some(Repeated(previous.messageID, Some(previous.createdAt), QueuedDelivery)))
    else
      (s.(idempotency := s.idempotency[SlotOf(m) := Reservation(m.id, now)]), None)
  }

  function Unreserved(s: Store, m: Outbound): Store
  {
    if KeyOf(m) == "" then s else s.(idempotency := s.idempotency - {SlotOf(m)})
  }

  /** The second critical section: record the message and try its worker's queue. */
  function Place(s: Store, m: Outbound, now: int): (Store, Receipt)
  {
    if m.channelID !in s.queues then (s, NotRunning)
    else
      var q := s.queues[m.channelID];
      if |q.items| < q.capacity then
        (s.(deliveries := Recorded(s.deliveries, m.id, m.channelID, m.id, QueuedDelivery, now, ""),
            queues := s.queues[m.channelID := q.(items := q.items + [m])]),
         Accepted(m.id, now))
      else
        (s.(deliveries := s.deliveries - {m.id}), Full)
  }

  /** The rest of Send: place the message, or undo its reservation. */
  function Enqueue(s: Store, m: Outbound, now: int): (Store, Receipt)
  {
    var (placed, receipt) := Place(s, m, now);
    (if receipt.Accepted? then placed else Unreserved(placed, m), receipt)
  }

  function Refusal(s: Store, m: Outbound, authorized: bool): Option<Receipt>
  {
    if !WellFormed(m) then Some(InvalidOutbound)
    else if m.channelID !in s.channels then Some(UnknownChannel)
    else if !s.channels[m.channelID] then Some(DisabledChannel)
    else if !authorized then Some(Denied)
    else None
  }

  function SendEffect(s: Store, request: Outbound, authorized: bool, generated: string, now: int): (Store, Receipt)
  {
    var refusal := Refusal(s, request, authorized);
    if refusal.Some? then (s, refusal.value)
    else
      var m := Named(request, generated);
      var (reserved, repeat) := Reserve(s, m, now);
      if repeat.Some? then (reserved, repeat.value) else Enqueue(reserved, m, now)
  }

  function Swept(s: Store, now: int): Store
  {
    var kept := map slot | slot in s.idempotency && now - s.idempotency[slot].createdAt <= WINDOW
                     :: s.idempotency[slot];
    s.(idempotency := kept)
  }

  class Repository {
    var channels: map<string, bool>
    var queues: map<string, Queue>
    var idempotency: map<string, Reservation>
    var deliveries: map<string, DeliveryStatus>

    function Contents(): Store
      reads this
    {
      Store(channels, queues, idempotency, deliveries)
    }

    constructor (channels: map<string, bool>)
      ensures Contents() == Store(channels, map[], map[], map[])
    {
      this.channels := channels;
      queues, idempotency, deliveries := map[], map[], map[];
    }

    method RecordDelivery(id: string, channelID: string, state: DeliveryState, now: int, error: string)
      modifies this`deliveries
      ensures deliveries == Recorded(old(deliveries), id, channelID, id, state, now, error)
    {
      var accepted := Some(now);
      if id in deliveries && deliveries[id].acceptedAt.Some? {
        accepted := deliveries[id].acceptedAt;
      }
      deliveries := deliveries[id := DeliveryStatus(id, channelID, state, accepted, now, error)];
    }

    method DeleteDelivery(id: string)
      modifies this`deliveries
      ensures deliveries == old(deliveries) - {id}
    {
      deliveries := deliveries - {id};
    }

    method Send(request: Outbound, authorized: bool, generated: string, now: int) returns (receipt: Receipt)
      modifies this
      ensures (Contents(), receipt) == SendEffect(old(Contents()), request, authorized, generated, now)
    {
      hide TrimSpace;
      hide IsBlank;
      hide Slot;
      if IsBlank(request.channelID) || IsBlank(request.targetID) || IsBlank(request.content) {
        return InvalidOutbound;
      }
      if request.channelID !in channels {
        return UnknownChannel;
      }
      if !channels[request.channelID] {
        return DisabledChannel;
      }
      if !authorized {
        return Denied;
      }
      var message := request;
      var key := TrimSpace(message.idempotencyKey);
      if message.id == "" {
        message := message.(id := generated);
      }
      var slot := Slot(message.channelID, key);
      if key != "" {
        if slot in idempotency && now - idempotency[slot].createdAt <= WINDOW {
          var previous := idempotency[slot];
          if previous.messageID in deliveries {
            var status := deliveries[previous.messageID];
            return Repeated(previous.messageID, status.acceptedAt, status.state);
          }
          return Repeated(previous.messageID, Some(previous.createdAt), QueuedDelivery);
        } else {
          idempotency := idempotency - {slot};
          idempotency := idempotency[slot := Reservation(message.id, now)];
          assert idempotency == old(idempotency)[slot := Reservation(message.id, now)];
        }
      }
      assert Reserve(old(Contents()), message, now) == (Contents(), None);
      if message.channelID !in queues {
        if key != "" {
          idempotency := idempotency - {slot};
        }
        return NotRunning;
      }
      ghost var reserved := deliveries;
      RecordDelivery(message.id, message.channelID, QueuedDelivery, now, "");
      var q := queues[message.channelID];
      if |q.items| < q.capacity {
        queues := queues[message.channelID := q.(items := q.items + [message])];
        return Accepted(message.id, now);
      }
      DeleteDelivery(message.id);
      assert deliveries == reserved - {message.id};
      if key != "" {
        idempotency := idempotency - {slot};
      }
      return Full;
    }

    /** The janitor's pass over the reservations. */
    method SweepReservations(now: int)
      modifies this`idempotency
      ensures Contents() == Swept(old(Contents()), now)
      ensures forall slot :: slot in idempotency <==>
        slot in old(idempotency) && now - old(idempotency)[slot].createdAt <= 30 * 60 * 1_000_000_000
      ensures forall slot <- idempotency :: idempotency[slot] == old(idempotency)[slot]
    {
      var remaining := idempotency.Keys;
      ghost var before := idempotency;
      while remaining != {}
        invariant remaining <= before.Keys
        invariant idempotency.Keys <= before.Keys
        invariant forall slot <- before ::
                    slot in idempotency <==> slot in remaining || now - before[slot].createdAt <= WINDOW
        invariant forall slot <- idempotency :: idempotency[slot] == before[slot]
        decreases |remaining|
      {
        var slot :| slot in remaining;
        remaining := remaining - {slot};
        if now - idempotency[slot].createdAt > WINDOW {
          idempotency := idempotency - {slot};
        }
      }
    }
  }

  /** The message of a request, under its own id or the generated one. */
  predicate IsMessageOf(m: Outbound, request: Outbound, generated: string)
  {
    m.id == (if request.id == "" then generated else request.id) && m == request.(id := m.id)
  }

  /** An accepted message is the last of its channel's queue, in its record, and under its reservation. */
  predicate IsAccepted(before: Store, after: Store, m: Outbound, key: string, slot: string, now: int)
  {
    var c := m.channelID;
    && c in before.queues
    && after.queues == before.queues[c := Queue(before.queues[c].capacity, before.queues[c].items + [m])]
    && m.id in after.deliveries && after.deliveries.Keys == before.deliveries.Keys + {m.id}
    && (forall id <- before.deliveries :: id != m.id ==> after.deliveries[id] == before.deliveries[id])
    && after.deliveries[m.id].state == QueuedDelivery && after.deliveries[m.id].channelID == c
    && after.deliveries[m.id].messageID == m.id
    && after.deliveries[m.id].updatedAt == now && after.deliveries[m.id].error == ""
    && after.deliveries[m.id].acceptedAt
       == (if m.id in before.deliveries && before.deliveries[m.id].acceptedAt.Some?
           then before.deliveries[m.id].acceptedAt else Some(now))
    && after.idempotency == (if key == "" then before.idempotency
                             else before.idempotency[slot := Reservation(m.id, now)])
  }

  /** What a send does and what its caller is told, case by case. */
  lemma SendTells(s: Store, request: Outbound, authorized: bool, generated: string, now: int, m: Outbound)
    requires IsMessageOf(m, request, generated)
    ensures var (after, receipt) := SendEffect(s, request, authorized, generated, now);
      var c, key := request.channelID, TrimSpace(request.idempotencyKey);
      var slot := c + ['\U{001E}'] + key;
      var reserved := key != "" && slot in s.idempotency
                      && now - s.idempotency[slot].createdAt <= 30 * 60 * 1_000_000_000;
      if IsBlank(c) || IsBlank(request.targetID) || IsBlank(request.content) then
        receipt == InvalidOutbound && after == s
      else if c !in s.channels then receipt == UnknownChannel && after == s
      else if !s.channels[c] then receipt == DisabledChannel && after == s
      else if !authorized then receipt == Denied && after == s
      else if reserved then
        var first := s.idempotency[slot];
        && after == s
        && receipt == (if first.messageID in s.deliveries
                       then Repeated(first.messageID, s.deliveries[first.messageID].acceptedAt,
                                     s.deliveries[first.messageID].state)
                       else Repeated(first.messageID, Some(first.createdAt), QueuedDelivery))
      else if c !in s.queues then
        receipt == NotRunning && after == s.(idempotency := if key == "" then s.idempotency else s.idempotency - {slot})
      else if |s.queues[c].items| < s.queues[c].capacity then
        receipt == Accepted(m.id, now) && IsAccepted(s, after, m, key, slot, now) && after.channels == s.channels
      else
        receipt == Full && after == s.(deliveries := s.deliveries - {m.id},
                                       idempotency := if key == "" then s.idempotency else s.idempotency - {slot})
  {
    assert m == Named(request, generated);
    var slot := SlotOf(m);
    assert s.idempotency[slot := Reservation(m.id, now)] - {slot} == s.idempotency - {slot};
    hide TrimSpace;
    hide IsBlank;
  }

  /** A send that fails to enqueue leaves no reservation and no record of its message, and no queue changed. */
  lemma FailedEnqueueLeavesNothing(s: Store, request: Outbound, generated: string, now: int)
    ensures var (after, receipt) := SendEffect(s, request, true, generated, now); var m := Named(request, generated);
      receipt == Full || receipt == NotRunning ==>
        && after.queues == s.queues
        && (KeyOf(m) != "" ==> SlotOf(m) !in after.idempotency)
        && (receipt == Full ==> after.deliveries == s.deliveries - {m.id})
        && (receipt == NotRunning ==> after.deliveries == s.deliveries)
  {
  }

  /**
   Send must be one step for this. If a second send of the key comes between the first one's reservation and
   its failure on a full queue, it is told the first one's id, and neither message is ever queued.
   */
  lemma InterleavedRepeatIsLost(s: Store, first: Outbound, second: Outbound, now: int)
    requires KeyOf(first) != "" && SlotOf(second) == SlotOf(first) && KeyOf(second) != ""
    requires !Live(s, SlotOf(first), now)
    requires first.channelID in s.queues && |s.queues[first.channelID].items| >= s.queues[first.channelID].capacity
    ensures var reserved := Reserve(s, first, now).0;
      && Reserve(reserved, second, now).1.Some? && Reserve(reserved, second, now).1.value.Repeated?
      && Reserve(reserved, second, now).1.value.messageID == first.id
      && var (after, receipt) := Enqueue(Reserve(reserved, second, now).0, first, now);
         receipt == Full && after.queues == s.queues && SlotOf(first) !in after.idempotency
  {
  }
}
