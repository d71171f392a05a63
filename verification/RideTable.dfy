/** The ride-hailing chain the adapter plays and the attempts seeded for it. */
module RideTable {
  import opened EventModel

  const RIDE_TYPES: seq<string> := ["RIDE_REQUESTED", "DRIVER_MATCHED", "DRIVER_ARRIVED",
                                    "TRIP_STARTED", "TRIP_COMPLETED", "PAYMENT_PROCESSED"]

  /** max_attempts of the seeded configurations, in chain order. */
  const SEEDED_ATTEMPTS: seq<int> := [3, 3, 2, 1, 1, 3]

  /** The keys of the adapter's table. */
  const RIDE_STEPS: seq<string> := ["ride_requested", "driver_matched", "driver_arrived",
                                    "trip_started", "trip_completed", "payment_processed"]

  /** The type each step spins off on success; the last one spins off nothing. */
  const NEXT_EVENTS: seq<string> := ["DRIVER_MATCHED", "DRIVER_ARRIVED", "TRIP_STARTED",
                                     "TRIP_COMPLETED", "PAYMENT_PROCESSED", ""]

  /** The first position of a type in a list, from a position on; -1 if there is none. */
  function IndexFrom(types: seq<string>, t: string, from: nat): (r: int)
    requires from <= |types|
    ensures -1 <= r < |types|
    ensures r >= 0 ==> types[r] == t
    decreases |types| - from
  {
    if from == |types| then -1 else if types[from] == t then from else IndexFrom(types, t, from + 1)
  }

  /** The type a successful step spins off; empty for the last step and for types outside the table. */
  function NextEvent(lowered: string): string {
    var i := IndexFrom(RIDE_STEPS, lowered, 0);
    if i < 0 then "" else NEXT_EVENTS[i]
  }

  /** The place of an event type in the chain, -1 outside it. */
  function RankOf(eventType: string): (r: int)
    ensures -1 <= r < 6
    ensures r >= 0 ==> RIDE_TYPES[r] == eventType
  {
    IndexFrom(RIDE_TYPES, eventType, 0)
  }

  lemma {:induction false} IndexOfFirst(types: seq<string>, from: nat, k: nat)
    requires from <= k < |types| && forall j :: from <= j < k ==> types[j] != types[k]
    ensures IndexFrom(types, types[k], from) == k
    decreases k - from
  {
    if from < k {
      IndexOfFirst(types, from + 1, k);
    }
  }

  lemma TypesDiffer(j: nat, k: nat)
    requires j < k < 6
    ensures RIDE_TYPES[j] != RIDE_TYPES[k]
  {
    if |RIDE_TYPES[j]| == |RIDE_TYPES[k]| {
      assert RIDE_TYPES[j][0] != RIDE_TYPES[k][0] || RIDE_TYPES[j][7] != RIDE_TYPES[k][7];
    }
  }

  lemma StepsDiffer(j: nat, k: nat)
    requires j < k < 6
    ensures RIDE_STEPS[j] != RIDE_STEPS[k]
  {
    if |RIDE_STEPS[j]| == |RIDE_STEPS[k]| {
      assert RIDE_STEPS[j][0] != RIDE_STEPS[k][0] || RIDE_STEPS[j][7] != RIDE_STEPS[k][7];
    }
  }

  const SUBJECT_PREFIX := "event-engine."

  function TrimPrefix(s: string, prefix: string): string {
    if prefix <= s then s[|prefix|..] else s
  }

  /** The spinoffs a successful adapter run reports for a message. */
  function AdapterSpinoffs(m: Message): seq<Spinoff> {
    var next := NextEvent(ToLower(TrimPrefix(m.subject, SUBJECT_PREFIX)));
    if next == "" then [] else [Spinoff(next, m.payload, None)]
  }

  lemma {:induction false} ToLowerIsIdempotent(s: string)
    ensures ToLower(ToLower(s)) == ToLower(s)
  {
    var t := ToLower(s);
    forall i | 0 <= i < |s| ensures ToLower(t)[i] == t[i] {
      assert t[i] == ToLowerChar(s[i]);
    }
  }

  lemma RankOfType(r: nat)
    requires r < 6
    ensures RankOf(RIDE_TYPES[r]) == r
  {
    forall j | 0 <= j < r ensures RIDE_TYPES[j] != RIDE_TYPES[r] {
      TypesDiffer(j, r);
    }
    IndexOfFirst(RIDE_TYPES, 0, r);
  }

  lemma NextOfStep(r: nat)
    requires r < 6
    ensures NextEvent(RIDE_STEPS[r]) == NEXT_EVENTS[r]
  {
    forall j | 0 <= j < r ensures RIDE_STEPS[j] != RIDE_STEPS[r] {
      StepsDiffer(j, r);
    }
    IndexOfFirst(RIDE_STEPS, 0, r);
  }

  /** The lowering of a string, letter by letter. */
  predicate Lowers(s: string, t: string) {
    |s| == |t| && forall i :: 0 <= i < |s| ==> ToLowerChar(s[i]) == t[i]
  }

  lemma LoweredByLetters(s: string, t: string)
    requires Lowers(s, t)
    ensures ToLower(s) == t
  {
  }

  lemma LoweredRideRequested(s: string, t: string)
    requires s == "RIDE_REQUESTED" && t == "ride_requested"
    ensures Lowers(s, t)
  {
  }

  lemma LoweredDriverMatched(s: string, t: string)
    requires s == "DRIVER_MATCHED" && t == "driver_matched"
    ensures Lowers(s, t)
  {
  }

  lemma LoweredDriverArrived(s: string, t: string)
    requires s == "DRIVER_ARRIVED" && t == "driver_arrived"
    ensures Lowers(s, t)
  {
  }

  lemma LoweredTripStarted(s: string, t: string)
    requires s == "TRIP_STARTED" && t == "trip_started"
    ensures Lowers(s, t)
  {
  }

  lemma LoweredTripCompleted(s: string, t: string)
    requires s == "TRIP_COMPLETED" && t == "trip_completed"
    ensures Lowers(s, t)
  {
  }

  lemma LoweredPaymentProcessed(s: string, t: string)
    requires s == "PAYMENT_PROCESSED" && t == "payment_processed"
    ensures Lowers(s, t)
  {
  }

  lemma TypeLowers(s: string)
    requires RankOf(s) >= 0
    ensures Lowers(s, RIDE_STEPS[RankOf(s)])
  {
    match RankOf(s)
    case 0 => LoweredRideRequested(s, RIDE_STEPS[0]);
    case 1 => LoweredDriverMatched(s, RIDE_STEPS[1]);
    case 2 => LoweredDriverArrived(s, RIDE_STEPS[2]);
    case 3 => LoweredTripStarted(s, RIDE_STEPS[3]);
    case 4 => LoweredTripCompleted(s, RIDE_STEPS[4]);
    case _ => LoweredPaymentProcessed(s, RIDE_STEPS[5]);
  }

  lemma LoweredType(s: string)
    requires RankOf(s) >= 0
    ensures ToLower(s) == RIDE_STEPS[RankOf(s)]
  {
    TypeLowers(s);
    LoweredByLetters(s, RIDE_STEPS[RankOf(s)]);
  }

  lemma NextTypeRanksNext(r: nat)
    requires r < 5
    ensures RankOf(NEXT_EVENTS[r]) == r + 1
  {
    assert NEXT_EVENTS[r] == RIDE_TYPES[r + 1];
    RankOfType(r + 1);
  }

  lemma NextAtRank(lowered: string, r: nat)
    requires r < 6 && lowered == RIDE_STEPS[r]
    ensures r < 5 ==> RankOf(NextEvent(lowered)) == r + 1
    ensures r == 5 ==> NextEvent(lowered) == ""
  {
    NextOfStep(r);
    if r < 5 {
      NextTypeRanksNext(r);
    }
  }

  /** A success moves exactly one place down the chain, and the last step ends it. */
  lemma ChainAdvances(s: string)
    requires RankOf(s) >= 0
    ensures RankOf(s) < 5 ==> RankOf(NextEvent(ToLower(s))) == RankOf(s) + 1
    ensures RankOf(s) == 5 ==> NextEvent(ToLower(s)) == ""
  {
    LoweredType(s);
    NextAtRank(ToLower(s), RankOf(s));
  }

  /** The adapter sees the event type through the lowered subject only, and that is enough. */
  lemma SpinoffsFollowTheTable(m: Message, eventType: string)
    requires m.subject == SUBJECT_PREFIX + ToLower(eventType)
    ensures AdapterSpinoffs(m) ==
            if NextEvent(ToLower(eventType)) == "" then []
                else [Spinoff(NextEvent(ToLower(eventType)), m.payload, None)]
  {
    assert m.subject[|SUBJECT_PREFIX|..] == ToLower(eventType);
    ToLowerIsIdempotent(eventType);
  }
}
