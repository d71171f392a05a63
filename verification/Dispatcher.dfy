/** Message expiry: the bucket a dispatcher picks and the test a consumer applies. */
module Dispatcher {
  import opened EventModel

  const TTL_BUCKETS: seq<int> := [30, 75, 150, 300, 600, 1200, 3600, 7200, 86400]
  const LARGEST_BUCKET: int := 86400

  function WholeSeconds(d: int): int {
    GoDiv(d, SECOND)
  }

  /** RFC 3339 timestamps carry no fraction of a second. */
  function TruncatedToSecond(t: Time): (r: Time)
    ensures r <= t < r + SECOND && r % SECOND == 0
  {
    t / SECOND * SECOND
  }

  /** The bucket for a number of seconds, by its place between the neighbouring buckets. */
  function BucketFor(seconds: int): int {
    if seconds <= 30 then 30 else if seconds <= 75 then 75 else if seconds <= 150 then 150
    else if seconds <= 300 then 300 else if seconds <= 600 then 600 else if seconds <= 1200 then 1200
    else if seconds <= 3600 then 3600 else if seconds <= 7200 then 7200 else 86400
  }

  lemma BucketAt(i: nat, seconds: int)
    requires i < |TTL_BUCKETS| && seconds <= TTL_BUCKETS[i]
    requires forall j :: 0 <= j < i ==> TTL_BUCKETS[j] < seconds
    ensures BucketFor(seconds) == TTL_BUCKETS[i]
    ensures forall j :: i < j < |TTL_BUCKETS| ==> TTL_BUCKETS[i] < TTL_BUCKETS[j]
  {
    if i > 0 {
      assert TTL_BUCKETS[i - 1] < seconds;
    }
  }

  /** The scan of the dispatcher: the least bucket that covers the remaining whole seconds, else the largest. */
  method SelectTtlBucket(remaining: int) returns (bucket: int)
    ensures bucket == BucketFor(WholeSeconds(remaining))
    ensures bucket in TTL_BUCKETS && TTL_BUCKETS == [30, 75, 150, 300, 600, 1200, 3600, 7200, 86400]
    ensures forall b :: b in TTL_BUCKETS && b >= WholeSeconds(remaining) ==> WholeSeconds(remaining) <= bucket <= b
    ensures (forall b :: b in TTL_BUCKETS ==> b < WholeSeconds(remaining)) ==> bucket == LARGEST_BUCKET
  {
    var seconds := WholeSeconds(remaining);
    for i := 0 to |TTL_BUCKETS|
      invariant forall j :: 0 <= j < i ==> TTL_BUCKETS[j] < seconds
    {
      if TTL_BUCKETS[i] >= seconds {
        BucketAt(i, seconds);
        return TTL_BUCKETS[i];
      }
    }
    assert TTL_BUCKETS[8] == LARGEST_BUCKET;
    return TTL_BUCKETS[|TTL_BUCKETS| - 1];
  }

  /** A longer remaining time never gets a smaller bucket, and buckets waste less than a factor of three. */
  lemma BucketIsMonotoneAndTight(r1: int, r2: int)
    requires r1 <= r2
    ensures BucketFor(WholeSeconds(r1)) <= BucketFor(WholeSeconds(r2))
    ensures 31 <= WholeSeconds(r2) <= 7200 ==>
              WholeSeconds(r2) <= BucketFor(WholeSeconds(r2)) < 3 * WholeSeconds(r2)
  {
  }

  /** What the dispatcher promises of the bucket: the smallest one at least as long as the remaining time itself. */
  predicate CoversRemaining(remaining: int) {
    && BucketFor(WholeSeconds(remaining)) * SECOND >= remaining
    && forall b :: b in TTL_BUCKETS && b * SECOND >= remaining ==> BucketFor(WholeSeconds(remaining)) <= b
  }

  /**
   * The promise is kept exactly when the remaining time exceeds no bucket by a fraction of a second and does not
   * exceed the largest at all: cutting it to whole seconds loses the fraction.
   */
  lemma CoversRemainingIff(remaining: int)
    ensures CoversRemaining(remaining) <==>
            remaining <= LARGEST_BUCKET * SECOND
            && (WholeSeconds(remaining) in TTL_BUCKETS ==> remaining == WholeSeconds(remaining) * SECOND)
  {
  }

  /** Half a second over the smallest bucket is enough to break it: 30.5 s get a bucket of 30 s. */
  lemma HalfASecondIsNotCovered()
    ensures BucketFor(WholeSeconds(30 * SECOND + SECOND / 2)) == 30
    ensures !CoversRemaining(30 * SECOND + SECOND / 2)
  {
  }

  datatype DispatchError = NoDueDate | Expired

  datatype DispatchResult = Published(msg: Message) | Rejected(error: DispatchError)

  /** What Dispatch publishes: it reads the clock once for the expiry test and once for the header. */
  function Dispatched(e: Event, payload: string, now: Time, publishedAt: Time): DispatchResult {
    if e.eventProcessingDueDate.None? then Rejected(NoDueDate)
    else
      var remaining := e.eventProcessingDueDate.value - now;
      if remaining <= 0 then Rejected(Expired)
      else Published(Message("event-engine." + ToLower(e.eventType), e.id, e.eventType, e.flowType, e.flowId,
                             BucketFor(WholeSeconds(remaining)), TruncatedToSecond(publishedAt), payload))
  }

  /** Exactly the events whose due date lies ahead are published, and the message carries their data. */
  lemma PublishedOnlyInTime(e: Event, payload: string, now: Time, publishedAt: Time)
    ensures Dispatched(e, payload, now, publishedAt).Published? <==>
            e.eventProcessingDueDate.Some? && now < e.eventProcessingDueDate.value
    ensures Dispatched(e, payload, now, publishedAt).Published? ==>
              var m := Dispatched(e, payload, now, publishedAt).msg;
              m.subject == "event-engine." + ToLower(e.eventType) && m.id == e.id && m.eventType == e.eventType &&
              m.flowType == e.flowType && m.flowId == e.flowId && m.payload == payload &&
              m.publishedAt % SECOND == 0 && m.publishedAt <= publishedAt < m.publishedAt + SECOND
  {
  }

  /** The consumer drops a message whose age exceeds its bucket. */
  predicate Discards(m: Message, now: Time) {
    now - m.publishedAt > m.ttlSeconds * SECOND
  }

  /** No message of a dispatch decided at this instant is discarded more than two seconds before the due date. */
  ghost predicate NeverDiscardedEarly(due: Time, sentAt: Time) {
    forall e: Event, payload, publishedAt, now
      {:trigger Discards(Dispatched(e, payload, sentAt, publishedAt).msg, now)} ::
      e.eventProcessingDueDate == Some(due) && Dispatched(e, payload, sentAt, publishedAt).Published?
      && sentAt <= publishedAt && Discards(Dispatched(e, payload, sentAt, publishedAt).msg, now)
      ==> now > due - 2 * SECOND
  }

  lemma DiscardedOnlyNearDueDate(e: Event, payload: string, sentAt: Time, publishedAt: Time, now: Time)
    requires e.eventProcessingDueDate.Some? && Dispatched(e, payload, sentAt, publishedAt).Published?
    requires sentAt <= publishedAt
    requires e.eventProcessingDueDate.value - TruncatedToSecond(sentAt) <= (LARGEST_BUCKET + 2) * SECOND
    requires Discards(Dispatched(e, payload, sentAt, publishedAt).msg, now)
    ensures now > e.eventProcessingDueDate.value - 2 * SECOND
  {
    var seconds := WholeSeconds(e.eventProcessingDueDate.value - sentAt);
    if seconds > LARGEST_BUCKET {
      assert TruncatedToSecond(sentAt) <= TruncatedToSecond(publishedAt);
    }
  }

  /**
   * The two-second guarantee holds for a dispatch exactly when its due date lies at most 86402 seconds after the
   * whole second of the dispatch; beyond that the largest bucket is too small.
   */
  lemma NeverDiscardedEarlyIff(due: Time, sentAt: Time)
    requires sentAt < due
    ensures NeverDiscardedEarly(due, sentAt) <==> due - TruncatedToSecond(sentAt) <= (LARGEST_BUCKET + 2) * SECOND
  {
    if due - TruncatedToSecond(sentAt) <= (LARGEST_BUCKET + 2) * SECOND {
      forall e: Event, payload, publishedAt, now |
        e.eventProcessingDueDate == Some(due) && Dispatched(e, payload, sentAt, publishedAt).Published?
        && sentAt <= publishedAt && Discards(Dispatched(e, payload, sentAt, publishedAt).msg, now)
        ensures now > due - 2 * SECOND
      {
        DiscardedOnlyNearDueDate(e, payload, sentAt, publishedAt, now);
      }
    } else {
      var e := Event("", "", "", "", AwaitingProcessing, 1, 1, 0, None, None, Some(due), None, Active, 0, 0);
      var m := Dispatched(e, "", sentAt, sentAt).msg;
      assert WholeSeconds(due - sentAt) >= LARGEST_BUCKET + 1;
      assert Discards(m, TruncatedToSecond(sentAt) + LARGEST_BUCKET * SECOND + 1);
    }
  }

  /** In particular the guarantee covers every dispatch with under 86401 seconds left. */
  lemma UnderADayNeverDiscardedEarly(due: Time, sentAt: Time)
    requires sentAt < due < sentAt + (LARGEST_BUCKET + 1) * SECOND
    ensures NeverDiscardedEarly(due, sentAt)
  {
    NeverDiscardedEarlyIff(due, sentAt);
  }
}
