/** The worker of one channel: bounded retry with exponential backoff, and the delivery record it keeps. */
module ChannelWorker {
  import opened Sequences
  import opened ChannelSplit

  datatype DeliveryState = QueuedDelivery | Sending | Acknowledged | FailedDelivery | CancelledDelivery

  datatype DeliveryStatus = DeliveryStatus(
    messageID: string, channelID: string, state: DeliveryState, acceptedAt: Option<int>, updatedAt: int, error: string)

  datatype SendError =
    | ContextCanceled | DeadlineExceeded | InvalidMessage | ChannelDisabled | Unsupported | QueueFull
    | PlatformError(text: string)

  datatype SendResult = Delivered(receiptID: string) | Refused(error: SendError)

  predicate Retryable(error: SendError)
  {
    error.PlatformError?
  }

  function ErrorText(error: SendError): string
  {
    match error
    case PlatformError(text) => text
    case ContextCanceled => "context canceled"
    case DeadlineExceeded => "context deadline exceeded"
    case InvalidMessage => "channelcore: invalid message"
    case ChannelDisabled => "channelcore: channel is disabled"
    case Unsupported => "channelcore: capability unsupported"
    case QueueFull => "channelcore: channel queue is full"
  }

  // ---- Backoff ----

  function Pow2(n: nat): nat
  {
    if n == 0 then 1 else 2 * Pow2(n - 1)
  }

  const TWO_TO_63: int := 0x8000_0000_0000_0000

  /** Two's complement int64. */
  function Wrap64(x: int): int
  {
    (x + TWO_TO_63) % (2 * TWO_TO_63) - TWO_TO_63
  }

  const BASE_NANOS: int := 250_000_000

  /** time.Duration(1<<attempt)*250*time.Millisecond, as the machine computes it. */
  function BackoffNanos(attempt: nat): int
  {
    Wrap64(Wrap64(Pow2(attempt)) * BASE_NANOS)
  }

  /** What a timer of that duration waits. */
  function Slept(attempt: nat): nat
  {
    if BackoffNanos(attempt) > 0 then BackoffNanos(attempt) else 0
  }

  lemma {:induction false} Pow2Grows(m: nat, n: nat)
    requires m <= n
    ensures 1 <= Pow2(m) <= Pow2(n)
  {
    if m < n {
      Pow2Grows(m, n - 1);
    } else if n > 0 {
      Pow2Grows(m - 1, n - 1);
    }
  }

  lemma Pow2At35()
    ensures Pow2(35) == 0x8_0000_0000 && Pow2(36) == 0x10_0000_0000
  {
    assert Pow2(5) == 32;
    assert Pow2(10) == 1024;
    assert Pow2(15) == 32768;
    assert Pow2(20) == 1048576;
    assert Pow2(25) == 33554432;
    assert Pow2(30) == 1073741824;
  }

  lemma Wrap64Range(x: int)
    ensures -TWO_TO_63 <= Wrap64(x) < TWO_TO_63
    ensures -TWO_TO_63 <= x < TWO_TO_63 ==> Wrap64(x) == x
  {
  }

  lemma BackoffFits(attempt: nat)
    requires attempt <= 35
    ensures BackoffNanos(attempt) == Pow2(attempt) * BASE_NANOS
  {
    Pow2At35();
    Pow2Grows(attempt, 35);
    Wrap64Range(Pow2(attempt));
    Wrap64Range(Pow2(attempt) * BASE_NANOS);
    hide Pow2;
    hide Wrap64;
  }

  lemma BackoffWraps(attempt: nat)
    requires attempt >= 36
    ensures BackoffNanos(attempt) < TWO_TO_63 <= Pow2(attempt) * BASE_NANOS
  {
    Pow2At35();
    Pow2Grows(36, attempt);
    Wrap64Range(Wrap64(Pow2(attempt)) * BASE_NANOS);
    hide Pow2;
    hide Wrap64;
  }

  /** The computed backoff is 250 ms doubled attempt times exactly when attempt is at most 35. */
  lemma BackoffIsExactIff(attempt: nat)
    ensures BackoffNanos(attempt) == Pow2(attempt) * 250_000_000 <==> attempt <= 35
  {
    if attempt <= 35 {
      BackoffFits(attempt);
    } else {
      BackoffWraps(attempt);
    }
  }

  /** However it wraps, a timer never waits longer than the doubling says. */
  lemma SleptIsBounded(attempt: nat)
    ensures Slept(attempt) <= Pow2(attempt) * BASE_NANOS
    ensures attempt <= 35 ==> Slept(attempt) == Pow2(attempt) * BASE_NANOS
  {
    Pow2Grows(0, attempt);
    hide BackoffNanos;
    if attempt <= 35 {
      BackoffFits(attempt);
    } else {
      BackoffWraps(attempt);
    }
  }

  // ---- The platform and the delivery records ----

  /** How far a platform was used. */
  datatype Tally = Tally(calls: nat, waits: nat, pauses: nat, slept: nat)

  predicate NoLess(used: Tally, more: Tally)
  {
    used.calls <= more.calls && used.waits <= more.waits && used.pauses <= more.pauses
  }

  /** A platform and the runtime around it, answering arbitrarily; the counters say how far it was used. */
  class Platform {
    const responds: nat -> SendResult     // the answer to each call
    const admits: nat -> bool             // whether each limiter wait ends in a grant rather than a cancellation
    const endures: nat -> bool            // whether each backoff runs out rather than being cancelled
    var calls: nat
    var waits: nat
    var pauses: nat
    var slept: nat
    var accepted: seq<Outbound>

    function Usage(): Tally
      reads this
    {
      Tally(calls, waits, pauses, slept)
    }

    constructor (responds: nat -> SendResult, admits: nat -> bool, endures: nat -> bool)
      ensures calls == waits == pauses == slept == 0 && accepted == []
    {
      this.responds, this.admits, this.endures := responds, admits, endures;
      calls, waits, pauses, slept, accepted := 0, 0, 0, 0, [];
    }

    method Admit() returns (ok: bool)
      modifies this`waits
      ensures ok == admits(old(waits)) && waits == old(waits) + 1
    {
      ok := admits(waits);
      waits := waits + 1;
    }

    method Send(message: Outbound) returns (result: SendResult)
      modifies this`calls, this`accepted
      ensures result == responds(old(calls)) && calls == old(calls) + 1
      ensures accepted == if result.Delivered? then old(accepted) + [message] else old(accepted)
    {
      result := responds(calls);
      calls := calls + 1;
      if result.Delivered? {
        accepted := accepted + [message];
      }
    }

    method Backoff(attempt: nat) returns (ok: bool)
      modifies this`pauses, this`slept
      ensures ok == endures(old(pauses)) && pauses == old(pauses) + 1 && slept == old(slept) + Slept(attempt)
    {
      ok := endures(pauses);
      pauses := pauses + 1;
      slept := slept + Slept(attempt);
    }
  }

  /** The delivery records after one is written: it keeps the time it was first accepted. */
  function Recorded(records: map<string, DeliveryStatus>, id: string, channelID: string, messageID: string,
                    state: DeliveryState, now: int, error: string): map<string, DeliveryStatus>
  {
    var accepted := if id in records && records[id].acceptedAt.Some? then records[id].acceptedAt else Some(now);
    records[id := DeliveryStatus(messageID, channelID, state, accepted, now, error)]
  }

  /** MaxRetries as sendWithRetry takes it. */
  function Retries(configured: int): nat
  {
    if configured <= 0 then 4 else configured
  }

  class Deliveries {
    var records: map<string, DeliveryStatus>

    constructor ()
      ensures records == map[]
    {
      records := map[];
    }

    method RecordWithMessageID(id: string, channelID: string, messageID: string, state: DeliveryState, now: int,
                               error: string)
      modifies this
      ensures records == Recorded(old(records), id, channelID, messageID, state, now, error)
    {
      var accepted := if id in records && records[id].acceptedAt.Some? then records[id].acceptedAt else Some(now);
      records := records[id := DeliveryStatus(messageID, channelID, state, accepted, now, error)];
    }

    method Record(id: string, channelID: string, state: DeliveryState, now: int, error: string)
      modifies this
      ensures records == Recorded(old(records), id, channelID, id, state, now, error)
    {
      RecordWithMessageID(id, channelID, id, state, now, error);
    }

    /** Sends one message with bounded retry and leaves its record acknowledged exactly when the platform took it. */
    method SendWithRetry(platform: Platform, message: Outbound, maxRetries: int, now: int) returns (trip: Trip)
      modifies this, platform`calls, platform`waits, platform`pauses, platform`slept, platform`accepted
      ensures platform.accepted == if trip.Acked? then old(platform.accepted) + [message] else old(platform.accepted)
      ensures EndsAs(platform, trip, if maxRetries <= 0 then 4 else maxRetries, old(platform.calls), platform.calls)
      ensures BacksOff(if maxRetries <= 0 then 4 else maxRetries, platform.pauses - old(platform.pauses),
                       platform.slept - old(platform.slept))
      ensures old(platform.waits) <= platform.waits
      ensures trip.Stopped? ==> WasCancelled(platform, old(platform.Usage()), platform.Usage())
      ensures records.Keys == old(records).Keys + {message.id}
      ensures forall other <- old(records) :: other != message.id ==> records[other] == old(records)[other]
      ensures Tells(records[message.id], trip) && records[message.id].updatedAt == now
      ensures records[message.id].state
              == (if trip.Acked? then Acknowledged else if trip.GaveUp? then FailedDelivery else CancelledDelivery)
      ensures trip.GaveUp? && trip.error.PlatformError? ==> records[message.id].error == trip.error.text
      ensures records[message.id].messageID
              == (if trip.Acked? && trip.receiptID != "" then trip.receiptID else message.id)
      ensures records[message.id].acceptedAt ==
        if message.id in old(records) && old(records)[message.id].acceptedAt.Some?
        then old(records)[message.id].acceptedAt else Some(now)
    {
      hide EndsAs;
      hide BacksOff;
      Record(message.id, message.channelID, Sending, now, "");
      var retries := maxRetries;
      if retries <= 0 {
        retries := 4;
      }
      trip := Attempts(platform, message, retries);
      match trip {
        case Acked(receiptID) =>
          var id := message.id;
          if receiptID != "" {
            id := receiptID;
          }
          RecordWithMessageID(message.id, message.channelID, id, Acknowledged, now, "");
        case GaveUp(error) =>
          Record(message.id, message.channelID, FailedDelivery, now, ErrorText(error));
        case Stopped =>
          Record(message.id, message.channelID, CancelledDelivery, now, "context ended");
      }
    }

    /** The chunks of one message, in order, until one is not accepted. */
    method SendChunks(platform: Platform, message: Outbound, maxLength: int, maxRetries: int, now: int)
      returns (sent: nat, ghost last: Trip)
      modifies this, platform`calls, platform`waits, platform`pauses, platform`slept, platform`accepted
      ensures sent <= |Chunks(message, maxLength)|
      ensures platform.accepted == old(platform.accepted) + Chunks(message, maxLength)[..sent]
      ensures Finished(platform, records, message, sent, last, Retries(maxRetries), maxLength, old(platform.Usage()),
                       platform.Usage())
      ensures Spends(Retries(maxRetries), Tried(message, sent, maxLength), old(platform.Usage()), platform.Usage())
      ensures NoLess(old(platform.Usage()), platform.Usage())
      ensures records.Keys == old(records).Keys + {message.id}
      ensures forall other <- old(records) :: other != message.id ==> records[other] == old(records)[other]
    {
      var chunks := SplitOutbound(message, maxLength);
      ChunksExist(message, maxLength);
      hide Chunks;
      hide ErrorOf;
      hide Tells;
      hide Spends;
      hide CutShort;
      hide WasCancelled;
      hide EndsAs;
      hide BacksOff;
      sent, last := 0, Stopped;
      ghost var accepted0, records0, retries := platform.accepted, records, Retries(maxRetries);
      assert accepted0 + chunks[..0] == accepted0;
      SpendsNothing(retries, platform.Usage());
      while sent < |chunks|
        invariant sent <= |chunks|
        invariant platform.accepted == accepted0 + chunks[..sent]
        invariant NoLess(old(platform.Usage()), platform.Usage())
        invariant Spends(retries, sent, old(platform.Usage()), platform.Usage())
        invariant old(platform.calls) + sent <= platform.calls
        invariant sent > 0 ==> message.id in records && records[message.id].state == Acknowledged
        invariant records.Keys == records0.Keys + (if sent > 0 then {message.id} else {})
        invariant forall other <- records0 :: other != message.id ==> records[other] == records0[other]
      {
        assert chunks[sent] in chunks && chunks[sent].id == message.id;
        ghost var before := platform.Usage();
        var trip := SendWithRetry(platform, chunks[sent], maxRetries, now);
        last := trip;
        SpendsMore(platform, trip, retries, sent, old(platform.Usage()), before, platform.Usage());
        if !trip.Acked? {
          ShortFrom(platform, last, retries, sent, old(platform.Usage()), before, platform.Usage());
          return;
        }
        assert chunks[..sent + 1] == chunks[..sent] + [chunks[sent]];
        assert accepted0 + chunks[..sent] + [chunks[sent]] == accepted0 + chunks[..sent + 1];
        sent := sent + 1;
      }
    }

    /**
     The text queue of a worker, message after message; marks says how far the platform was used as each message
     began, and at the end. A message that was not sent whole was cut short by the platform or by a cancelled
     context within its own marks; a platform that takes everything gets everything.
     */
    method RunWorker(platform: Platform, kind: string, queue: seq<Outbound>, maxRetries: int, now: int)
      returns (sent: seq<nat>, ghost trips: seq<Trip>, ghost marks: seq<Tally>)
      requires DistinctIDs(queue)
      modifies this, platform`calls, platform`waits, platform`pauses, platform`slept, platform`accepted
      ensures |sent| == |queue|
      ensures Handled(old(platform.accepted), platform.accepted, records, queue, sent, MaxMessageLength(kind))
      ensures AllExplained(platform, records, queue, sent, trips, marks, Retries(maxRetries), MaxMessageLength(kind))
      ensures marks[0] == old(platform.Usage()) && marks[|queue|] == platform.Usage()
      ensures Spends(Retries(maxRetries), AllTried(queue, sent, MaxMessageLength(kind)), old(platform.Usage()),
                     platform.Usage())
      ensures Healthy(platform) ==>
        TookAll(old(platform.accepted), platform.accepted, records, queue, MaxMessageLength(kind))
    {
      var maxLength := MaxMessageLength(kind);
      ghost var accepted0, retries, used0 := platform.accepted, Retries(maxRetries), platform.Usage();
      sent, trips, marks := [], [], [used0];
      assert accepted0 + [] == accepted0;
      SpendsNothing(retries, used0);
      hide Spends;
      assert Worked(platform, accepted0, platform.accepted, records, queue, sent, trips, marks, retries, maxLength);
      hide Worked;
      while |sent| < |queue|
        invariant |sent| <= |queue| && |marks| == |sent| + 1
        invariant marks[0] == used0 && marks[|sent|] == platform.Usage()
        invariant Worked(platform, accepted0, platform.accepted, records, queue, sent, trips, marks, retries, maxLength)
      {
        hide Finished;
        ghost var before, accepted := records, platform.accepted;
        var k, last := SendChunks(platform, queue[|sent|], maxLength, maxRetries, now);
        WorkedNext(platform, accepted0, accepted, before, records, queue, sent, trips, marks, k, last, retries,
                   maxLength, platform.Usage());
        sent, trips, marks := sent + [k], trips + [last], marks + [platform.Usage()];
      }
      WorkedAll(platform, accepted0, platform.accepted, records, queue, sent, trips, marks, retries, maxLength);
    }
  }

  // ---- What a worker leaves ----

  /**
   After |sent| messages of the queue: the platform accepted a beginning of each one's chunks, in order,
   and each one's record says acknowledged exactly when that beginning is all of them.
   */
  ghost predicate Handled(accepted0: seq<Outbound>, accepted: seq<Outbound>, records: map<string, DeliveryStatus>,
                          queue: seq<Outbound>, sent: seq<nat>, maxLength: int)
  {
    && Within(queue, sent, maxLength)
    && accepted == accepted0 + Sent(queue[..|sent|], sent, maxLength)
    && AllAccounted(records, queue, sent, maxLength)
  }

  lemma HandledNext(accepted0: seq<Outbound>, accepted: seq<Outbound>,
                    before: map<string, DeliveryStatus>, after: map<string, DeliveryStatus>,
                    queue: seq<Outbound>, sent: seq<nat>, k: nat, maxLength: int)
    requires DistinctIDs(queue) && |sent| < |queue| && Handled(accepted0, accepted, before, queue, sent, maxLength)
    requires k <= |Chunks(queue[|sent|], maxLength)|
    requires forall id <- before :: id != queue[|sent|].id ==> id in after && after[id] == before[id]
    requires Accounted(after, queue[|sent|], k, maxLength)
    ensures Handled(accepted0, accepted + Chunks(queue[|sent|], maxLength)[..k], after, queue, sent + [k], maxLength)
  {
    SentNext(accepted0, queue, sent, k, maxLength);
    AccountedNext(before, after, queue, sent, k, maxLength);
  }

  predicate DistinctIDs(queue: seq<Outbound>)
  {
    forall i, j :: 0 <= i < j < |queue| ==> queue[i].id != queue[j].id
  }

  predicate AllAccounted(records: map<string, DeliveryStatus>, queue: seq<Outbound>, sent: seq<nat>, maxLength: int)
  {
    |sent| <= |queue| && forall i :: 0 <= i < |sent| ==> Accounted(records, queue[i], sent[i], maxLength)
  }

  /** Handling the next message leaves the records of the earlier ones alone. */
  lemma AccountedNext(before: map<string, DeliveryStatus>, after: map<string, DeliveryStatus>,
                      queue: seq<Outbound>, sent: seq<nat>, k: nat, maxLength: int)
    requires DistinctIDs(queue) && |sent| < |queue| && AllAccounted(before, queue, sent, maxLength)
    requires forall id <- before :: id != queue[|sent|].id ==> id in after && after[id] == before[id]
    requires Accounted(after, queue[|sent|], k, maxLength)
    ensures AllAccounted(after, queue, sent + [k], maxLength)
  {
    forall i | 0 <= i < |sent| ensures Accounted(after, queue[i], sent[i], maxLength) {
      assert Accounted(before, queue[i], sent[i], maxLength) && queue[i].id != queue[|sent|].id;
    }
  }

  /** No message counts more chunks than it has. */
  predicate Within(queue: seq<Outbound>, sent: seq<nat>, maxLength: int)
  {
    |sent| <= |queue| && forall i :: 0 <= i < |sent| ==> sent[i] <= |Chunks(queue[i], maxLength)|
  }

  lemma SentNext(accepted: seq<Outbound>, queue: seq<Outbound>, sent: seq<nat>, k: nat, maxLength: int)
    requires Within(queue, sent, maxLength) && |sent| < |queue| && k <= |Chunks(queue[|sent|], maxLength)|
    ensures Within(queue, sent + [k], maxLength)
    ensures accepted + Sent(queue[..|sent|], sent, maxLength) + Chunks(queue[|sent|], maxLength)[..k]
            == accepted + Sent(queue[..|sent| + 1], sent + [k], maxLength)
  {
    hide Chunks;
    var n := |sent|;
    assert queue[..n + 1][..n] == queue[..n] && (sent + [k])[..n] == sent;
    var before, more := Sent(queue[..n], sent, maxLength), Chunks(queue[n], maxLength)[..k];
    assert accepted + before + more == accepted + (before + more);
  }

  datatype Trip = Acked(receiptID: string) | GaveUp(error: SendError) | Stopped

  function StateOf(trip: Trip): DeliveryState
  {
    match trip
    case Acked(_) => Acknowledged
    case GaveUp(_) => FailedDelivery
    case Stopped => CancelledDelivery
  }

  function ErrorOf(trip: Trip): string
  {
    match trip
    case Acked(_) => ""
    case GaveUp(error) => ErrorText(error)
    case Stopped => "context ended"
  }

  /** The record tells how the trip ended. */
  predicate Tells(status: DeliveryStatus, trip: Trip)
  {
    status.state == StateOf(trip) && status.error == ErrorOf(trip)
  }

  /** A limiter wait or a backoff in between was cancelled. */
  ghost predicate WasCancelled(platform: Platform, before: Tally, after: Tally)
  {
    || (exists w: nat :: before.waits <= w < after.waits && !platform.admits(w))
    || (exists p: nat :: before.pauses <= p < after.pauses && !platform.endures(p))
  }

  /**
   Between before and after, one message: its first sent chunks took a call or more each, and the calls after
   them, up to the last one, ended in a trip that was not acknowledged, for a reason given in between.
   */
  ghost predicate CutShort(platform: Platform, trip: Trip, retries: nat, sent: nat, before: Tally, after: Tally)
  {
    && !trip.Acked?
    && (exists from: nat :: before.calls + sent <= from && EndsAs(platform, trip, retries, from, after.calls))
    && (trip.Stopped? ==> WasCancelled(platform, before, after))
  }

  lemma ShortFrom(platform: Platform, trip: Trip, retries: nat, sent: nat, before: Tally, mid: Tally, after: Tally)
    requires !trip.Acked? && EndsAs(platform, trip, retries, mid.calls, after.calls)
    requires NoLess(before, mid) && before.calls + sent <= mid.calls
    requires trip.Stopped? ==> WasCancelled(platform, mid, after)
    ensures CutShort(platform, trip, retries, sent, before, after)
  {
  }

  /** Each message spent what its chunks may between its own marks, and was finished there. */
  ghost predicate AllExplained(platform: Platform, records: map<string, DeliveryStatus>, queue: seq<Outbound>,
                               sent: seq<nat>, trips: seq<Trip>, marks: seq<Tally>, retries: nat, maxLength: int)
  {
    && |trips| == |sent| <= |queue| && |marks| == |sent| + 1
    && forall i :: 0 <= i < |sent| ==>
         && NoLess(marks[i], marks[i + 1])
         && Spends(retries, Tried(queue[i], sent[i], maxLength), marks[i], marks[i + 1])
         && Finished(platform, records, queue[i], sent[i], trips[i], retries, maxLength, marks[i], marks[i + 1])
  }

  lemma ExplainedNext(platform: Platform, before: map<string, DeliveryStatus>, after: map<string, DeliveryStatus>,
                      queue: seq<Outbound>, sent: seq<nat>, trips: seq<Trip>, marks: seq<Tally>, k: nat, last: Trip,
                      retries: nat, maxLength: int, more: Tally)
    requires DistinctIDs(queue) && |sent| < |queue|
    requires AllExplained(platform, before, queue, sent, trips, marks, retries, maxLength)
    requires NoLess(marks[|sent|], more)
    requires Spends(retries, Tried(queue[|sent|], k, maxLength), marks[|sent|], more)
    requires forall id <- before :: id != queue[|sent|].id ==> id in after && after[id] == before[id]
    requires Finished(platform, after, queue[|sent|], k, last, retries, maxLength, marks[|sent|], more)
    ensures AllExplained(platform, after, queue, sent + [k], trips + [last], marks + [more], retries, maxLength)
  {
    var n := |sent|;
    hide Tried;
    hide Spends;
    forall i | 0 <= i < n
      ensures Finished(platform, after, queue[i], sent[i], trips[i], retries, maxLength, marks[i], marks[i + 1])
    {
      assert Finished(platform, before, queue[i], sent[i], trips[i], retries, maxLength, marks[i], marks[i + 1]);
      assert queue[i].id != queue[n].id;
      hide Chunks;
      hide Tells;
      hide CutShort;
    }
    hide Finished;
  }

  /** One message was sent whole, or cut short as its record tells. */
  ghost predicate Finished(platform: Platform, records: map<string, DeliveryStatus>, message: Outbound, sent: nat,
                           last: Trip, retries: nat, maxLength: int, before: Tally, after: Tally)
  {
    && Accounted(records, message, sent, maxLength)
    && (sent < |Chunks(message, maxLength)| ==>
          CutShort(platform, last, retries, sent, before, after) && Tells(records[message.id], last))
  }

  /** How many chunks of a message were tried when sent of them were accepted. */
  function Tried(message: Outbound, sent: nat, maxLength: int): nat
  {
    if sent < |Chunks(message, maxLength)| then sent + 1 else sent
  }

  function AllTried(queue: seq<Outbound>, sent: seq<nat>, maxLength: int): nat
    requires |queue| == |sent|
  {
    if queue == [] then 0
    else
      var n := |queue| - 1;
      AllTried(queue[..n], sent[..n], maxLength) + Tried(queue[n], sent[n], maxLength)
  }

  lemma TriedNext(queue: seq<Outbound>, sent: seq<nat>, k: nat, maxLength: int)
    requires |sent| < |queue|
    ensures AllTried(queue[..|sent| + 1], sent + [k], maxLength)
            == AllTried(queue[..|sent|], sent, maxLength) + Tried(queue[|sent|], k, maxLength)
  {
    assert queue[..|sent| + 1][..|sent|] == queue[..|sent|] && (sent + [k])[..|sent|] == sent;
  }

  /** n tried chunks cost at most retries + 1 calls and the doubled backoffs each. */
  predicate Spends(retries: nat, n: nat, before: Tally, after: Tally)
  {
    && before.calls <= after.calls <= before.calls + n * (retries + 1)
    && after.slept <= before.slept + n * ((Pow2(retries) - 1) * BASE_NANOS)
  }

  lemma SpendsNothing(retries: nat, used: Tally)
    ensures Spends(retries, 0, used, used)
  {
  }

  lemma SpendsBoth(retries: nat, m: nat, n: nat, before: Tally, mid: Tally, after: Tally)
    requires Spends(retries, m, before, mid) && Spends(retries, n, mid, after)
    ensures Spends(retries, m + n, before, after)
  {
    var unit := (Pow2(retries) - 1) * BASE_NANOS;
    assert (m + n) * (retries + 1) == m * (retries + 1) + n * (retries + 1);
    assert (m + n) * unit == m * unit + n * unit;
  }

  lemma SpendsMore(platform: Platform, trip: Trip, retries: nat, n: nat, before: Tally, mid: Tally, after: Tally)
    requires Spends(retries, n, before, mid) && EndsAs(platform, trip, retries, mid.calls, after.calls)
    requires BacksOff(retries, after.pauses - mid.pauses, after.slept - mid.slept)
    ensures Spends(retries, n + 1, before, after)
    ensures mid.calls + (if trip.Acked? then 1 else 0) <= after.calls && mid.pauses <= after.pauses
  {
    var unit := (Pow2(retries) - 1) * BASE_NANOS;
    assert 1 * (retries + 1) == retries + 1 && 1 * unit == unit;
    assert Spends(retries, 1, mid, after);
    SpendsBoth(retries, n, 1, before, mid, after);
  }

  /** What a worker has done with the first messages of its queue. */
  ghost predicate Worked(platform: Platform, accepted0: seq<Outbound>, accepted: seq<Outbound>,
                         records: map<string, DeliveryStatus>, queue: seq<Outbound>, sent: seq<nat>, trips: seq<Trip>,
                         marks: seq<Tally>, retries: nat, maxLength: int)
  {
    && Handled(accepted0, accepted, records, queue, sent, maxLength)
    && AllExplained(platform, records, queue, sent, trips, marks, retries, maxLength)
    && Spends(retries, AllTried(queue[..|sent|], sent, maxLength), marks[0], marks[|sent|])
  }

  lemma WorkedNext(platform: Platform, accepted0: seq<Outbound>, accepted: seq<Outbound>,
                   before: map<string, DeliveryStatus>, after: map<string, DeliveryStatus>, queue: seq<Outbound>,
                   sent: seq<nat>, trips: seq<Trip>, marks: seq<Tally>, k: nat, last: Trip, retries: nat,
                   maxLength: int, more: Tally)
    requires DistinctIDs(queue) && |sent| < |queue| && k <= |Chunks(queue[|sent|], maxLength)|
    requires Worked(platform, accepted0, accepted, before, queue, sent, trips, marks, retries, maxLength)
    requires forall id <- before :: id != queue[|sent|].id ==> id in after && after[id] == before[id]
    requires Finished(platform, after, queue[|sent|], k, last, retries, maxLength, marks[|sent|], more)
    requires Spends(retries, Tried(queue[|sent|], k, maxLength), marks[|sent|], more) && NoLess(marks[|sent|], more)
    ensures Worked(platform, accepted0, accepted + Chunks(queue[|sent|], maxLength)[..k], after, queue, sent + [k],
                   trips + [last], marks + [more], retries, maxLength)
  {
    assert Accounted(after, queue[|sent|], k, maxLength);
    SpendsNext(queue, sent, marks, k, retries, maxLength, more);
    hide Handled;
    hide AllExplained;
    hide Spends;
    hide AllTried;
    hide Tried;
    hide Chunks;
    hide Finished;
    hide Accounted;
    hide DistinctIDs;
    hide NoLess;
    HandledNext(accepted0, accepted, before, after, queue, sent, k, maxLength);
    ExplainedNext(platform, before, after, queue, sent, trips, marks, k, last, retries, maxLength, more);
  }

  lemma SpendsNext(queue: seq<Outbound>, sent: seq<nat>, marks: seq<Tally>, k: nat, retries: nat, maxLength: int,
                   more: Tally)
    requires |sent| < |queue| && |marks| == |sent| + 1
    requires Spends(retries, AllTried(queue[..|sent|], sent, maxLength), marks[0], marks[|sent|])
    requires Spends(retries, Tried(queue[|sent|], k, maxLength), marks[|sent|], more)
    ensures var marks1, sent1 := marks + [more], sent + [k];
      Spends(retries, AllTried(queue[..|sent1|], sent1, maxLength), marks1[0], marks1[|sent1|])
  {
    var n := |sent|;
    hide AllTried;
    hide Tried;
    SpendsBoth(retries, AllTried(queue[..n], sent, maxLength), Tried(queue[n], k, maxLength), marks[0], marks[n], more);
    hide Spends;
    TriedNext(queue, sent, k, maxLength);
    assert (marks + [more])[0] == marks[0] && (marks + [more])[n + 1] == more && |sent + [k]| == n + 1;
  }

  /** The platform took every chunk of the queue, and every record says so. */
  predicate TookAll(accepted0: seq<Outbound>, accepted: seq<Outbound>, records: map<string, DeliveryStatus>,
                    queue: seq<Outbound>, maxLength: int)
  {
    && accepted == accepted0 + AllChunks(queue, maxLength)
    && forall message <- queue :: message.id in records && records[message.id].state == Acknowledged
  }

  lemma WorkedAll(platform: Platform, accepted0: seq<Outbound>, accepted: seq<Outbound>,
                  records: map<string, DeliveryStatus>, queue: seq<Outbound>, sent: seq<nat>, trips: seq<Trip>,
                  marks: seq<Tally>, retries: nat, maxLength: int)
    requires |sent| == |queue|
    requires Worked(platform, accepted0, accepted, records, queue, sent, trips, marks, retries, maxLength)
    ensures Handled(accepted0, accepted, records, queue, sent, maxLength)
    ensures AllExplained(platform, records, queue, sent, trips, marks, retries, maxLength)
    ensures Spends(retries, AllTried(queue, sent, maxLength), marks[0], marks[|sent|])
    ensures Healthy(platform) ==> TookAll(accepted0, accepted, records, queue, maxLength)
  {
    assert queue[..|sent|] == queue;
    if Healthy(platform) {
      HealthyTakesAll(platform, records, queue, sent, trips, marks, retries, maxLength);
      SentIsAll(queue, sent, maxLength);
    }
  }

  /** A platform that takes every message, under contexts that do not end. */
  ghost predicate Healthy(platform: Platform)
  {
    && (forall k: nat :: platform.responds(k).Delivered?)
    && (forall k: nat :: platform.admits(k)) && (forall k: nat :: platform.endures(k))
  }

  lemma HealthyIsNeverCutShort(platform: Platform, trip: Trip, retries: nat, sent: nat, before: Tally, after: Tally)
    requires Healthy(platform)
    ensures !CutShort(platform, trip, retries, sent, before, after)
  {
  }

  lemma HealthyTakesAll(platform: Platform, records: map<string, DeliveryStatus>, queue: seq<Outbound>, sent: seq<nat>,
                        trips: seq<Trip>, marks: seq<Tally>, retries: nat, maxLength: int)
    requires Healthy(platform) && |sent| == |queue| && Within(queue, sent, maxLength)
    requires AllExplained(platform, records, queue, sent, trips, marks, retries, maxLength)
    ensures forall i :: 0 <= i < |queue| ==> sent[i] == |Chunks(queue[i], maxLength)|
    ensures forall message <- queue :: message.id in records && records[message.id].state == Acknowledged
  {
    forall i | 0 <= i < |queue|
      ensures sent[i] == |Chunks(queue[i], maxLength)| && queue[i].id in records
              && records[queue[i].id].state == Acknowledged
    {
      assert Finished(platform, records, queue[i], sent[i], trips[i], retries, maxLength, marks[i], marks[i + 1]);
      HealthyIsNeverCutShort(platform, trips[i], retries, sent[i], marks[i], marks[i + 1]);
    }
  }

  /** All chunks of a queue, in order. */
  function AllChunks(queue: seq<Outbound>, maxLength: int): seq<Outbound>
  {
    if queue == [] then [] else AllChunks(queue[..|queue| - 1], maxLength) + Chunks(queue[|queue| - 1], maxLength)
  }

  lemma {:induction false} SentIsAll(queue: seq<Outbound>, sent: seq<nat>, maxLength: int)
    requires |queue| == |sent| && Within(queue, sent, maxLength)
    requires forall i :: 0 <= i < |queue| ==> sent[i] == |Chunks(queue[i], maxLength)|
    ensures Sent(queue, sent, maxLength) == AllChunks(queue, maxLength)
  {
    if queue != [] {
      var n := |queue| - 1;
      SentIsAll(queue[..n], sent[..n], maxLength);
      var chunks := Chunks(queue[n], maxLength);
      assert chunks[..|chunks|] == chunks;
    }
  }

  /** The record of a message says acknowledged exactly when all of its chunks were accepted. */
  predicate Accounted(records: map<string, DeliveryStatus>, message: Outbound, sent: nat, maxLength: int)
  {
    message.id in records && (records[message.id].state == Acknowledged <==> sent == |Chunks(message, maxLength)|)
  }

  /** The first sent[i] chunks of each queued message, in queue order. */
  function Sent(queue: seq<Outbound>, sent: seq<nat>, maxLength: int): seq<Outbound>
    requires |queue| == |sent| && Within(queue, sent, maxLength)
  {
    if queue == [] then []
    else
      var n := |queue| - 1;
      Sent(queue[..n], sent[..n], maxLength) + Chunks(queue[n], maxLength)[..sent[n]]
  }

  /** Calls from..to ended in trip: all before the last were refused retryably, and the last one explains the trip. */
  ghost predicate EndsAs(platform: Platform, trip: Trip, retries: nat, from: nat, to: nat)
  {
    && from <= to <= from + retries + 1
    && (forall k :: from <= k < to - 1 ==> platform.responds(k).Refused? && Retryable(platform.responds(k).error))
    && (trip.Acked? ==> from < to && platform.responds(to - 1) == Delivered(trip.receiptID))
    && (!trip.Acked? && from < to ==> platform.responds(to - 1).Refused?)
    && (trip.GaveUp? ==>
          && from < to && platform.responds(to - 1) == Refused(trip.error)
          && (Retryable(trip.error) ==> to == from + retries + 1))
  }

  /** The pauses stay within the retries and add up to the doubled base, exactly while the machine can compute them. */
  predicate BacksOff(retries: nat, pauses: int, slept: int)
  {
    && 0 <= pauses <= retries
    && slept <= (Pow2(pauses) - 1) * BASE_NANOS
    && slept <= (Pow2(retries) - 1) * BASE_NANOS
    && (retries <= 36 ==> slept == (Pow2(pauses) - 1) * BASE_NANOS)
  }

  /** The errors after which a message is not tried again. */
  predicate IsPermanent(error: SendError)
  {
    || error == ContextCanceled || error == DeadlineExceeded || error == InvalidMessage
    || error == ChannelDisabled || error == Unsupported || error == QueueFull
  }

  /** Every call of a trip but the last met a passing error; it gives up on a permanent one, or out of retries. */
  lemma TripTells(platform: Platform, trip: Trip, retries: nat, from: nat, to: nat)
    requires EndsAs(platform, trip, retries, from, to)
    ensures forall k :: from <= k < to - 1 ==>
      platform.responds(k).Refused? && !IsPermanent(platform.responds(k).error)
    ensures trip.Acked? ==> from < to && platform.responds(to - 1) == Delivered(trip.receiptID)
    ensures trip.GaveUp? ==> from < to && platform.responds(to - 1) == Refused(trip.error)
    ensures trip.GaveUp? && !IsPermanent(trip.error) ==> to - from == retries + 1
  {
  }

  lemma OneMorePause(retries: nat, pauses: nat, slept: int)
    requires BacksOff(retries, pauses, slept) && pauses < retries
    ensures BacksOff(retries, pauses + 1, slept + Slept(pauses))
  {
    SleptIsBounded(pauses);
    Pow2Grows(pauses + 1, retries);
    assert Pow2(pauses + 1) == 2 * Pow2(pauses);
  }

  /** The attempt loop of sendWithRetry. */
  method Attempts(platform: Platform, message: Outbound, retries: nat) returns (trip: Trip)
    modifies platform`calls, platform`waits, platform`pauses, platform`slept, platform`accepted
    ensures platform.accepted == if trip.Acked? then old(platform.accepted) + [message] else old(platform.accepted)
    ensures EndsAs(platform, trip, retries, old(platform.calls), platform.calls)
    ensures BacksOff(retries, platform.pauses - old(platform.pauses), platform.slept - old(platform.slept))
    ensures old(platform.waits) <= platform.waits
    ensures trip.Stopped? ==> WasCancelled(platform, old(platform.Usage()), platform.Usage())
  {
    ghost var calls0, pauses0, slept0 := platform.calls, platform.pauses, platform.slept;
    Pow2Grows(0, retries);
    hide Slept;
    hide Pow2;
    for attempt := 0 to retries + 1
      invariant platform.calls == calls0 + attempt && platform.pauses == pauses0 + attempt
      invariant attempt <= retries
      invariant platform.accepted == old(platform.accepted) && platform.waits >= old(platform.waits)
      invariant forall k :: calls0 <= k < platform.calls ==>
        platform.responds(k).Refused? && Retryable(platform.responds(k).error)
      invariant BacksOff(retries, attempt, platform.slept - slept0)
    {
      var admitted := platform.Admit();
      if !admitted {
        assert !platform.admits(platform.waits - 1);
        return Stopped;
      }
      var result := platform.Send(message);
      if result.Delivered? {
        return Acked(result.receiptID);
      } else if !Retryable(result.error) || attempt == retries {
        return GaveUp(result.error);
      }
      OneMorePause(retries, attempt, platform.slept - slept0);
      var endured := platform.Backoff(attempt);
      if !endured {
        assert !platform.endures(platform.pauses - 1);
        return Stopped;
      }
    }
    // The last attempt always returns: the statement after the source's loop is never reached.
    assert false;
  }
}
