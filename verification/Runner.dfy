/** A job's execution cycle: fetch a batch, process it in order, stop at the first limit that is reached. */
module Runner {
  import opened EventModel

  datatype JobConfig = JobConfig(batchSize: int, maxItems: int, maxFails: int)

  datatype FetchResult<+E> = Batch(events: seq<E>) | FetchError

  datatype Stop = ItemsReached | FailsReached | ContextDone | FetchFailed | NoEvents | ShortBatch

  /** The context is done from its n-th reading on, or never. */
  predicate CtxDone(expires: Option<nat>, readings: nat) {
    expires.Some? && readings >= expires.value
  }

  /** The world after processing events in order. */
  function Fold<W, E>(process: (W, E) -> (W, bool), w: W, es: seq<E>): W
    decreases |es|
  {
    if es == [] then w else process(Fold(process, w, es[..|es| - 1]), es[|es| - 1]).0
  }

  /** The outcomes of processing events in order. */
  function Outcomes<W, E>(process: (W, E) -> (W, bool), w: W, es: seq<E>): (r: seq<bool>)
    ensures |r| == |es|
    decreases |es|
  {
    if es == [] then []
    else Outcomes(process, w, es[..|es| - 1]) + [process(Fold(process, w, es[..|es| - 1]), es[|es| - 1]).1]
  }

  function Count(outcomes: seq<bool>, ok: bool): nat
    decreases |outcomes|
  {
    if outcomes == [] then 0
    else Count(outcomes[..|outcomes| - 1], ok) + (if outcomes[|outcomes| - 1] == ok then 1 else 0)
  }

  lemma {:induction false} CountAppend(xs: seq<bool>, ys: seq<bool>, ok: bool)
    ensures Count(xs + ys, ok) == Count(xs, ok) + Count(ys, ok)
    decreases |ys|
  {
    if ys == [] {
      assert xs + ys == xs;
    } else {
      var n := |ys| - 1;
      assert (xs + ys)[..|xs + ys| - 1] == xs + ys[..n];
      CountAppend(xs, ys[..n], ok);
    }
  }

  /** One fetched batch: the world the fetch left behind, its events, and how many of them were processed. */
  datatype Round<+W, +E> = Round(start: W, events: seq<E>, handled: nat)

  /** The part of its batch a round processed. */
  function Prefix<W, E>(r: Round<W, E>): seq<E> {
    if r.handled <= |r.events| then r.events[..r.handled] else r.events
  }

  /** Events processed over all rounds, in order, each round contributing a prefix of its batch. */
  function Handled<W, E>(rounds: seq<Round<W, E>>): seq<E>
    decreases |rounds|
  {
    if rounds == [] then []
    else
      var r := rounds[|rounds| - 1];
      Handled(rounds[..|rounds| - 1]) + Prefix(r)
  }

  function Results<W, E>(process: (W, E) -> (W, bool), rounds: seq<Round<W, E>>): seq<bool>
    decreases |rounds|
  {
    if rounds == [] then []
    else
      var r := rounds[|rounds| - 1];
      Results(process, rounds[..|rounds| - 1]) + Outcomes(process, r.start, Prefix(r))
  }

  function EndOf<W, E>(process: (W, E) -> (W, bool), r: Round<W, E>): W {
    Fold(process, r.start, Prefix(r))
  }

  /** The world the i-th fetch is made in. */
  function Before<W, E>(process: (W, E) -> (W, bool), w0: W, rounds: seq<Round<W, E>>, i: nat): W
    requires i <= |rounds|
  {
    if i == 0 then w0 else EndOf(process, rounds[i - 1])
  }

  ghost predicate Fetches<W, E>(fetch: (W, int) -> (FetchResult<E>, W), size: int, from: W, r: Round<W, E>) {
    fetch(from, size) == (Batch(r.events), r.start)
  }

  ghost predicate Link<W, E>(fetch: (W, int) -> (FetchResult<E>, W), process: (W, E) -> (W, bool), size: int,
                             w0: W, rounds: seq<Round<W, E>>, i: nat)
    requires i < |rounds|
  {
    && rounds[i].handled <= |rounds[i].events|
    && (i < |rounds| - 1 ==> rounds[i].handled == |rounds[i].events|)
    && Fetches(fetch, size, Before(process, w0, rounds, i), rounds[i])
  }

  /** Each round starts where the one before it ended, with a fetch; only the last may be cut short. */
  ghost predicate Chained<W, E>(fetch: (W, int) -> (FetchResult<E>, W), process: (W, E) -> (W, bool), size: int,
                                w0: W, rounds: seq<Round<W, E>>) {
    forall i :: 0 <= i < |rounds| ==> Link(fetch, process, size, w0, rounds, i)
  }

  function Max0(n: int): nat { if n < 0 then 0 else n }

  /** What one more round adds to the totals. */
  lemma RoundAdds<W, E>(process: (W, E) -> (W, bool), rounds: seq<Round<W, E>>, r: Round<W, E>)
    ensures var more := Outcomes(process, r.start, Prefix(r));
            Results(process, rounds + [r]) == Results(process, rounds) + more &&
            Handled(rounds + [r]) == Handled(rounds) + Prefix(r) &&
            Count(Results(process, rounds + [r]), true) == Count(Results(process, rounds), true) + Count(more, true) &&
            Count(Results(process, rounds + [r]), false) == Count(Results(process, rounds), false) + Count(more, false)
  {
    assert (rounds + [r])[..|rounds|] == rounds;
    CountAppend(Results(process, rounds), Outcomes(process, r.start, Prefix(r)), true);
    CountAppend(Results(process, rounds), Outcomes(process, r.start, Prefix(r)), false);
  }

  lemma ChainExtends<W, E>(fetch: (W, int) -> (FetchResult<E>, W), process: (W, E) -> (W, bool), size: int,
                           w0: W, rounds: seq<Round<W, E>>, r: Round<W, E>)
    requires Chained(fetch, process, size, w0, rounds) && r.handled <= |r.events|
    requires rounds != [] ==> rounds[|rounds| - 1].handled == |rounds[|rounds| - 1].events|
    requires Fetches(fetch, size, Before(process, w0, rounds, |rounds|), r)
    ensures Chained(fetch, process, size, w0, rounds + [r])
  {
    var next := rounds + [r];
    forall i | 0 <= i < |next| ensures Link(fetch, process, size, w0, next, i) {
      if i < |rounds| {
        assert Link(fetch, process, size, w0, rounds, i);
        assert Before(process, w0, next, i) == Before(process, w0, rounds, i);
      }
    }
  }

  /** Where the work on a batch stands: the world, the events handled, the totals and the context readings so far. */
  datatype Progress<+W> = Progress(w: W, handled: nat, processed: nat, failed: nat, readings: nat)

  /** One more event of the batch. */
  function Handle<W, E>(process: (W, E) -> (W, bool), events: seq<E>, p: Progress<W>): Progress<W>
    requires p.handled < |events|
  {
    var (next, ok) := process(p.w, events[p.handled]);
    Progress(next, p.handled + 1, if ok then p.processed + 1 else p.processed,
             if ok then p.failed else p.failed + 1, p.readings + 1)
  }

  /** A limit is reached or the context is done. */
  predicate Stops<W>(cfg: JobConfig, expires: Option<nat>, p: Progress<W>) {
    p.processed >= cfg.maxItems || p.failed >= cfg.maxFails || CtxDone(expires, p.readings)
  }

  /** The rest of a batch, one event at a time; each event is preceded by one reading of the context. */
  function BatchFrom<W, E>(cfg: JobConfig, process: (W, E) -> (W, bool), expires: Option<nat>, events: seq<E>,
                           p: Progress<W>): (q: Progress<W>)
    requires p.handled <= |events|
    ensures p.handled <= q.handled <= |events|
    decreases |events| - p.handled
  {
    if p.handled == |events| || Stops(cfg, expires, p) then p
    else BatchFrom(cfg, process, expires, events, Handle(process, events, p))
  }

  /** Every handled event is counted once and costs one reading; no limit is passed; only the context stops at once. */
  lemma {:induction false} BatchAdvances<W, E>(cfg: JobConfig, process: (W, E) -> (W, bool), expires: Option<nat>,
                                               events: seq<E>, p: Progress<W>)
    requires p.handled <= |events| && p.processed <= Max0(cfg.maxItems) && p.failed <= Max0(cfg.maxFails)
    ensures var q := BatchFrom(cfg, process, expires, events, p);
            q.readings == p.readings + q.handled - p.handled &&
            q.processed + q.failed == p.processed + p.failed + q.handled - p.handled &&
            q.processed <= Max0(cfg.maxItems) && q.failed <= Max0(cfg.maxFails) &&
            (p.handled < |events| && q.handled == p.handled ==> Stops(cfg, expires, p))
    decreases |events| - p.handled
  {
    if p.handled == |events| || Stops(cfg, expires, p) {
    } else {
      BatchAdvances(cfg, process, expires, events, Handle(process, events, p));
    }
  }

  /** How a cycle ended. */
  datatype Ended<+W, +E> =
    Ended(w: W, rounds: seq<Round<W, E>>, processed: nat, failed: nat, readings: nat, stop: Stop)

  /** The checks before a fetch. */
  function LimitStop(cfg: JobConfig, expires: Option<nat>, processed: nat, failed: nat, readings: nat): Option<Stop> {
    if processed >= cfg.maxItems then Some(ItemsReached)
    else if failed >= cfg.maxFails then Some(FailsReached)
    else if CtxDone(expires, readings) then Some(ContextDone)
    else None
  }

  /** The checks after a batch. */
  function BatchStop<E>(cfg: JobConfig, events: seq<E>): Option<Stop> {
    if |events| == 0 then Some(NoEvents)
    else if |events| < cfg.batchSize then Some(ShortBatch)
    else None
  }

  /** What is left to spend: items, failures, and the context while it lasts. */
  function Budget(cfg: JobConfig, expires: Option<nat>, processed: nat, failed: nat, readings: nat): int {
    Max0(cfg.maxItems) - processed + (Max0(cfg.maxFails) - failed) + (if CtxDone(expires, readings) then 0 else 1)
  }

  lemma BatchSpends<W, E>(cfg: JobConfig, process: (W, E) -> (W, bool), expires: Option<nat>, events: seq<E>, start: W,
                          processed: nat, failed: nat, readings: nat)
    requires LimitStop(cfg, expires, processed, failed, readings) == None && events != []
    ensures var q := BatchFrom(cfg, process, expires, events, Progress(start, 0, processed, failed, readings + 1));
            q.processed <= Max0(cfg.maxItems) && q.failed <= Max0(cfg.maxFails) &&
            0 <= Budget(cfg, expires, q.processed, q.failed, q.readings)
                 < Budget(cfg, expires, processed, failed, readings)
  {
    BatchAdvances(cfg, process, expires, events, Progress(start, 0, processed, failed, readings + 1));
  }

  /** The rest of a cycle: one reading of the context and one fetch for each batch. */
  function Cycle<W, E>(cfg: JobConfig, fetch: (W, int) -> (FetchResult<E>, W), process: (W, E) -> (W, bool),
                       expires: Option<nat>, w: W, rounds: seq<Round<W, E>>, processed: nat, failed: nat,
                       readings: nat): Ended<W, E>
    requires processed <= Max0(cfg.maxItems) && failed <= Max0(cfg.maxFails)
    decreases Budget(cfg, expires, processed, failed, readings)
  {
    match LimitStop(cfg, expires, processed, failed, readings)
    case Some(stop) => Ended(w, rounds, processed, failed, readings, stop)
    case None =>
      var (fetched, start) := fetch(w, cfg.batchSize);
      match fetched
      case FetchError => Ended(start, rounds, processed, failed, readings + 1, FetchFailed)
      case Batch(events) =>
        var q := BatchFrom(cfg, process, expires, events, Progress(start, 0, processed, failed, readings + 1));
        var next := rounds + [Round(start, events, q.handled)];
        match BatchStop(cfg, events)
        case Some(stop) => Ended(q.w, next, q.processed, q.failed, q.readings, stop)
        case None =>
          BatchSpends(cfg, process, expires, events, start, processed, failed, readings);
          Cycle(cfg, fetch, process, expires, q.w, next, q.processed, q.failed, q.readings)
  }

  lemma {:induction false} BatchOutlived<W, E>(cfg: JobConfig, process: (W, E) -> (W, bool), n: nat, events: seq<E>,
                                               p: Progress<W>)
    requires p.handled <= |events| && BatchFrom(cfg, process, Some(n), events, p).readings < n
    ensures BatchFrom(cfg, process, Some(n), events, p) == BatchFrom(cfg, process, None, events, p)
    decreases |events| - p.handled
  {
    if p.handled == |events| || Stops(cfg, Some(n), p) {
    } else {
      BatchOutlived(cfg, process, n, events, Handle(process, events, p));
    }
  }

  lemma {:induction false} ReadingsGrow<W, E>(cfg: JobConfig, fetch: (W, int) -> (FetchResult<E>, W),
                                              process: (W, E) -> (W, bool), expires: Option<nat>, w: W,
                                              rounds: seq<Round<W, E>>, processed: nat, failed: nat, readings: nat)
    requires processed <= Max0(cfg.maxItems) && failed <= Max0(cfg.maxFails)
    ensures readings <= Cycle(cfg, fetch, process, expires, w, rounds, processed, failed, readings).readings
    decreases Budget(cfg, expires, processed, failed, readings)
  {
    if LimitStop(cfg, expires, processed, failed, readings) == None {
      var (fetched, start) := fetch(w, cfg.batchSize);
      if fetched.Batch? {
        var p := Progress(start, 0, processed, failed, readings + 1);
        var q := BatchFrom(cfg, process, expires, fetched.events, p);
        BatchAdvances(cfg, process, expires, fetched.events, p);
        if BatchStop(cfg, fetched.events) == None {
          BatchSpends(cfg, process, expires, fetched.events, start, processed, failed, readings);
          ReadingsGrow(cfg, fetch, process, expires, q.w, rounds + [Round(start, fetched.events, q.handled)],
                       q.processed, q.failed, q.readings);
        }
      }
    }
  }

  /** A context that outlives the cycle's readings makes no difference: the cycle ends as it would without one. */
  lemma {:induction false} OutlivingContextIsNone<W, E>(cfg: JobConfig, fetch: (W, int) -> (FetchResult<E>, W),
                                                        process: (W, E) -> (W, bool), n: nat, w: W,
                                                        rounds: seq<Round<W, E>>, processed: nat, failed: nat,
                                                        readings: nat)
    requires processed <= Max0(cfg.maxItems) && failed <= Max0(cfg.maxFails)
    requires Cycle(cfg, fetch, process, Some(n), w, rounds, processed, failed, readings).readings < n
    ensures Cycle(cfg, fetch, process, Some(n), w, rounds, processed, failed, readings)
            == Cycle(cfg, fetch, process, None, w, rounds, processed, failed, readings)
    decreases Budget(cfg, Some(n), processed, failed, readings)
  {
    ReadingsGrow(cfg, fetch, process, Some(n), w, rounds, processed, failed, readings);
    if LimitStop(cfg, Some(n), processed, failed, readings) == None {
      var (fetched, start) := fetch(w, cfg.batchSize);
      if fetched.Batch? {
        var p := Progress(start, 0, processed, failed, readings + 1);
        var q := BatchFrom(cfg, process, Some(n), fetched.events, p);
        var next := rounds + [Round(start, fetched.events, q.handled)];
        if BatchStop(cfg, fetched.events) == None {
          BatchSpends(cfg, process, Some(n), fetched.events, start, processed, failed, readings);
          ReadingsGrow(cfg, fetch, process, Some(n), q.w, next, q.processed, q.failed, q.readings);
          OutlivingContextIsNone(cfg, fetch, process, n, q.w, next, q.processed, q.failed, q.readings);
        }
        BatchOutlived(cfg, process, n, fetched.events, p);
      }
    }
  }

  /** The totals, starting from these, count the outcomes of the events handled so far. */
  ghost predicate BatchCounted<W, E>(cfg: JobConfig, process: (W, E) -> (W, bool), start: W, events: seq<E>,
                                     processed0: nat, failed0: nat, p: Progress<W>) {
    && p.handled <= |events| && p.w == Fold(process, start, events[..p.handled])
    && p.processed == processed0 + Count(Outcomes(process, start, events[..p.handled]), true)
    && p.failed == failed0 + Count(Outcomes(process, start, events[..p.handled]), false)
    && p.processed <= cfg.maxItems && p.failed <= cfg.maxFails
    && p.processed + p.failed <= cfg.maxItems + cfg.maxFails - 1
  }

  lemma HandleCounts<W, E>(cfg: JobConfig, process: (W, E) -> (W, bool), start: W, events: seq<E>,
                           processed0: nat, failed0: nat, p: Progress<W>)
    requires BatchCounted(cfg, process, start, events, processed0, failed0, p) && p.handled < |events|
    requires p.processed < cfg.maxItems && p.failed < cfg.maxFails
    ensures BatchCounted(cfg, process, start, events, processed0, failed0, Handle(process, events, p))
  {
    var (next, ok) := process(p.w, events[p.handled]);
    assert events[..p.handled + 1][..p.handled] == events[..p.handled];
    CountAppend(Outcomes(process, start, events[..p.handled]), [ok], true);
    CountAppend(Outcomes(process, start, events[..p.handled]), [ok], false);
  }

  lemma {:induction false} BatchIsCounted<W, E>(cfg: JobConfig, process: (W, E) -> (W, bool), expires: Option<nat>,
                                                start: W, events: seq<E>, processed0: nat, failed0: nat, p: Progress<W>)
    requires BatchCounted(cfg, process, start, events, processed0, failed0, p)
    ensures BatchCounted(cfg, process, start, events, processed0, failed0, BatchFrom(cfg, process, expires, events, p))
    decreases |events| - p.handled
  {
    if p.handled == |events| || Stops(cfg, expires, p) {
    } else {
      HandleCounts(cfg, process, start, events, processed0, failed0, p);
      BatchIsCounted(cfg, process, expires, start, events, processed0, failed0, Handle(process, events, p));
    }
  }

  /** A batch is cut short only by a limit or by the context, and never outreads the context. */
  lemma {:induction false} BatchStops<W, E>(cfg: JobConfig, process: (W, E) -> (W, bool), expires: Option<nat>,
                                            events: seq<E>, p: Progress<W>)
    requires p.handled <= |events|
    ensures var q := BatchFrom(cfg, process, expires, events, p);
            (q.handled < |events| ==>
               q.processed >= cfg.maxItems || q.failed >= cfg.maxFails
               || (expires.Some? && expires.value <= q.readings)) &&
            (expires.Some? && p.readings <= expires.value ==> q.readings <= expires.value)
    decreases |events| - p.handled
  {
    if p.handled == |events| || Stops(cfg, expires, p) {
    } else {
      BatchStops(cfg, process, expires, events, Handle(process, events, p));
    }
  }

  /** The inner loop: a prefix of the batch, up to the first limit. */
  method ProcessBatch<W, E>(cfg: JobConfig, process: (W, E) -> (W, bool), expires: Option<nat>, start: W,
                            events: seq<E>, processed0: nat, failed0: nat, readings0: nat)
      returns (w: W, handled: nat, processed: nat, failed: nat, readings: nat)
    requires processed0 < cfg.maxItems && failed0 < cfg.maxFails
    ensures Progress(w, handled, processed, failed, readings)
            == BatchFrom(cfg, process, expires, events, Progress(start, 0, processed0, failed0, readings0))
    ensures BatchCounted(cfg, process, start, events, processed0, failed0,
                         Progress(w, handled, processed, failed, readings))
    ensures processed + failed == processed0 + failed0 + handled && readings == readings0 + handled
    ensures handled < |events| ==>
              processed == cfg.maxItems || failed == cfg.maxFails || (expires.Some? && expires.value <= readings)
    ensures expires.Some? && readings0 <= expires.value ==> readings <= expires.value
  {
    w, handled, processed, failed, readings := start, 0, processed0, failed0, readings0;
    ghost var p0 := Progress(start, 0, processed0, failed0, readings0);
    while handled < |events|
      invariant handled <= |events|
      invariant BatchFrom(cfg, process, expires, events, Progress(w, handled, processed, failed, readings))
                == BatchFrom(cfg, process, expires, events, p0)
    {
      if processed >= cfg.maxItems {
        break;
      }
      if failed >= cfg.maxFails {
        break;
      }
      if CtxDone(expires, readings) {
        break;
      }
      readings := readings + 1;
      var (next, ok) := process(w, events[handled]);
      w := next;
      if ok {
        processed := processed + 1;
      } else {
        failed := failed + 1;
      }
      handled := handled + 1;
    }
    BatchAdvances(cfg, process, expires, events, p0);
    BatchIsCounted(cfg, process, expires, start, events, processed0, failed0, p0);
    BatchStops(cfg, process, expires, events, p0);
  }

  /** The totals a sequence of rounds amounts to. */
  ghost predicate Totals<W, E>(process: (W, E) -> (W, bool), rounds: seq<Round<W, E>>, processed: nat, failed: nat) {
    && processed == Count(Results(process, rounds), true)
    && failed == Count(Results(process, rounds), false)
    && processed + failed == |Handled(rounds)|
  }

  predicate CutShort<W, E>(rounds: seq<Round<W, E>>) {
    rounds != [] && rounds[|rounds| - 1].handled < |rounds[|rounds| - 1].events|
  }

  lemma {:induction false} CountAll(xs: seq<bool>)
    ensures Count(xs, true) + Count(xs, false) == |xs|
    decreases |xs|
  {
    if xs == [] {
    } else {
      CountAll(xs[..|xs| - 1]);
    }
  }

  /** Appending a round, all at once. */
  lemma RoundTaken<W, E>(fetch: (W, int) -> (FetchResult<E>, W), process: (W, E) -> (W, bool), size: int,
                         w0: W, rounds: seq<Round<W, E>>, r: Round<W, E>, processed: nat, failed: nat)
    requires Chained(fetch, process, size, w0, rounds) && !CutShort(rounds) && r.handled <= |r.events|
    requires Fetches(fetch, size, Before(process, w0, rounds, |rounds|), r)
    requires Totals(process, rounds, processed, failed)
    ensures var next := rounds + [r]; var more := Outcomes(process, r.start, r.events[..r.handled]);
            Chained(fetch, process, size, w0, next) &&
            Totals(process, next, processed + Count(more, true), failed + Count(more, false)) &&
            Before(process, w0, next, |next|) == Fold(process, r.start, r.events[..r.handled]) &&
            (CutShort(next) <==> r.handled < |r.events|)
  {
    assert rounds != [] ==> Link(fetch, process, size, w0, rounds, |rounds| - 1);
    ChainExtends(fetch, process, size, w0, rounds, r);
    RoundAdds(process, rounds, r);
    CountAll(Outcomes(process, r.start, Prefix(r)));
  }

  /**
   * Everything the rounds so far account for: the limits on successes and failures, which bound the process calls by
   * one less than their sum, the totals as counts of outcomes, and batches handled in order, each as a prefix.
   */
  ghost predicate Accounted<W, E>(cfg: JobConfig, fetch: (W, int) -> (FetchResult<E>, W), process: (W, E) -> (W, bool),
                                  w0: W, rounds: seq<Round<W, E>>, processed: nat, failed: nat) {
    && processed <= Max0(cfg.maxItems) && failed <= Max0(cfg.maxFails)
    && Totals(process, rounds, processed, failed)
    && (cfg.maxItems > 0 && cfg.maxFails > 0 ==> |Handled(rounds)| <= cfg.maxItems + cfg.maxFails - 1)
    && (cfg.maxItems <= 0 || cfg.maxFails <= 0 ==> rounds == [])
    && Chained(fetch, process, cfg.batchSize, w0, rounds)
  }

  lemma RoundAccounted<W, E>(cfg: JobConfig, fetch: (W, int) -> (FetchResult<E>, W), process: (W, E) -> (W, bool),
                             w0: W, rounds: seq<Round<W, E>>, r: Round<W, E>,
                             processed0: nat, failed0: nat, processed: nat, failed: nat)
    requires Accounted(cfg, fetch, process, w0, rounds, processed0, failed0) && !CutShort(rounds)
    requires processed0 < cfg.maxItems && failed0 < cfg.maxFails && r.handled <= |r.events|
    requires Fetches(fetch, cfg.batchSize, Before(process, w0, rounds, |rounds|), r)
    requires var more := Outcomes(process, r.start, r.events[..r.handled]);
             processed == processed0 + Count(more, true) && failed == failed0 + Count(more, false)
    requires processed <= cfg.maxItems && failed <= cfg.maxFails
             && processed + failed <= cfg.maxItems + cfg.maxFails - 1
    ensures var next := rounds + [r];
            Accounted(cfg, fetch, process, w0, next, processed, failed) &&
            Before(process, w0, next, |next|) == Fold(process, r.start, r.events[..r.handled]) &&
            (CutShort(next) <==> r.handled < |r.events|)
  {
    RoundTaken(fetch, process, cfg.batchSize, w0, rounds, r, processed0, failed0);
  }

  /** Where a cycle stands between two batches. */
  ghost predicate UnderWay<W, E>(cfg: JobConfig, fetch: (W, int) -> (FetchResult<E>, W), process: (W, E) -> (W, bool),
                                 expires: Option<nat>, w0: W, w: W, rounds: seq<Round<W, E>>,
                                 processed: nat, failed: nat, readings: nat) {
    && Accounted(cfg, fetch, process, w0, rounds, processed, failed) && w == Before(process, w0, rounds, |rounds|)
    && (CutShort(rounds) ==>
          processed == cfg.maxItems || failed == cfg.maxFails || (expires.Some? && expires.value <= readings))
    && readings == |rounds| + processed + failed && (expires.Some? ==> readings <= expires.value)
  }

  /** How a cycle ends: what it accounts for, why it stopped, and how often it read the context. */
  ghost predicate EndsWell<W, E>(cfg: JobConfig, fetch: (W, int) -> (FetchResult<E>, W), process: (W, E) -> (W, bool),
                                 expires: Option<nat>, w0: W, e: Ended<W, E>) {
    && Accounted(cfg, fetch, process, w0, e.rounds, e.processed, e.failed)
    && (e.stop != FetchFailed ==> e.w == Before(process, w0, e.rounds, |e.rounds|))
    && (CutShort(e.rounds) ==>
          e.processed == cfg.maxItems || e.failed == cfg.maxFails || (expires.Some? && expires.value <= e.readings))
    && e.readings == |e.rounds| + e.processed + e.failed + (if e.stop == FetchFailed then 1 else 0)
    && (expires.Some? ==> e.readings <= expires.value)
    && match e.stop
       case ItemsReached => e.processed >= cfg.maxItems
       case FailsReached => e.failed >= cfg.maxFails
       case ContextDone => expires.Some? && expires.value <= e.readings
       case FetchFailed =>
         fetch(Before(process, w0, e.rounds, |e.rounds|), cfg.batchSize).0.FetchError?
         && e.w == fetch(Before(process, w0, e.rounds, |e.rounds|), cfg.batchSize).1
       case NoEvents => e.rounds != [] && e.rounds[|e.rounds| - 1].events == []
       case ShortBatch => e.rounds != [] && 0 < |e.rounds[|e.rounds| - 1].events| < cfg.batchSize
  }

  lemma BatchKeepsUnderWay<W, E>(cfg: JobConfig, fetch: (W, int) -> (FetchResult<E>, W), process: (W, E) -> (W, bool),
                                 expires: Option<nat>, w0: W, w: W, rounds: seq<Round<W, E>>,
                                 processed: nat, failed: nat, readings: nat)
    requires UnderWay(cfg, fetch, process, expires, w0, w, rounds, processed, failed, readings)
    requires LimitStop(cfg, expires, processed, failed, readings) == None && fetch(w, cfg.batchSize).0.Batch?
    ensures var events, start := fetch(w, cfg.batchSize).0.events, fetch(w, cfg.batchSize).1;
            var q := BatchFrom(cfg, process, expires, events, Progress(start, 0, processed, failed, readings + 1));
            UnderWay(cfg, fetch, process, expires, w0, q.w, rounds + [Round(start, events, q.handled)],
                     q.processed, q.failed, q.readings)
  {
    var events, start := fetch(w, cfg.batchSize).0.events, fetch(w, cfg.batchSize).1;
    var p := Progress(start, 0, processed, failed, readings + 1);
    var q := BatchFrom(cfg, process, expires, events, p);
    assert !CutShort(rounds);
    BatchAdvances(cfg, process, expires, events, p);
    BatchIsCounted(cfg, process, expires, start, events, processed, failed, p);
    BatchStops(cfg, process, expires, events, p);
    RoundAccounted(cfg, fetch, process, w0, rounds, Round(start, events, q.handled), processed, failed,
                   q.processed, q.failed);
  }

  lemma LimitEndsWell<W, E>(cfg: JobConfig, fetch: (W, int) -> (FetchResult<E>, W), process: (W, E) -> (W, bool),
                            expires: Option<nat>, w0: W, w: W, rounds: seq<Round<W, E>>,
                            processed: nat, failed: nat, readings: nat, stop: Stop)
    requires UnderWay(cfg, fetch, process, expires, w0, w, rounds, processed, failed, readings)
    requires LimitStop(cfg, expires, processed, failed, readings) == Some(stop)
    ensures EndsWell(cfg, fetch, process, expires, w0, Ended(w, rounds, processed, failed, readings, stop))
  {
  }

  lemma FetchErrorEndsWell<W, E>(cfg: JobConfig, fetch: (W, int) -> (FetchResult<E>, W), process: (W, E) -> (W, bool),
                                 expires: Option<nat>, w0: W, w: W, rounds: seq<Round<W, E>>,
                                 processed: nat, failed: nat, readings: nat)
    requires UnderWay(cfg, fetch, process, expires, w0, w, rounds, processed, failed, readings)
    requires LimitStop(cfg, expires, processed, failed, readings) == None && fetch(w, cfg.batchSize).0.FetchError?
    ensures EndsWell(cfg, fetch, process, expires, w0,
                     Ended(fetch(w, cfg.batchSize).1, rounds, processed, failed, readings + 1, FetchFailed))
  {
  }

  lemma BatchEndsWell<W, E>(cfg: JobConfig, fetch: (W, int) -> (FetchResult<E>, W), process: (W, E) -> (W, bool),
                            expires: Option<nat>, w0: W, w: W, rounds: seq<Round<W, E>>, last: Round<W, E>,
                            processed: nat, failed: nat, readings: nat, stop: Stop)
    requires UnderWay(cfg, fetch, process, expires, w0, w, rounds + [last], processed, failed, readings)
    requires BatchStop(cfg, last.events) == Some(stop)
    ensures EndsWell(cfg, fetch, process, expires, w0, Ended(w, rounds + [last], processed, failed, readings, stop))
  {
  }

  lemma {:induction false} CycleEndsWell<W, E>(cfg: JobConfig, fetch: (W, int) -> (FetchResult<E>, W),
                                               process: (W, E) -> (W, bool), expires: Option<nat>, w0: W, w: W,
                                               rounds: seq<Round<W, E>>, processed: nat, failed: nat, readings: nat)
    requires UnderWay(cfg, fetch, process, expires, w0, w, rounds, processed, failed, readings)
    ensures EndsWell(cfg, fetch, process, expires, w0,
                     Cycle(cfg, fetch, process, expires, w, rounds, processed, failed, readings))
    decreases Budget(cfg, expires, processed, failed, readings)
  {
    match LimitStop(cfg, expires, processed, failed, readings)
    case Some(stop) => LimitEndsWell(cfg, fetch, process, expires, w0, w, rounds, processed, failed, readings, stop);
    case None =>
      var (fetched, start) := fetch(w, cfg.batchSize);
      match fetched
      case FetchError => FetchErrorEndsWell(cfg, fetch, process, expires, w0, w, rounds, processed, failed, readings);
      case Batch(events) =>
        BatchKeepsUnderWay(cfg, fetch, process, expires, w0, w, rounds, processed, failed, readings);
        var q := BatchFrom(cfg, process, expires, events, Progress(start, 0, processed, failed, readings + 1));
        var last := Round(start, events, q.handled);
        match BatchStop(cfg, events)
        case Some(stop) =>
          BatchEndsWell(cfg, fetch, process, expires, w0, q.w, rounds, last, q.processed, q.failed, q.readings, stop);
        case None =>
          BatchSpends(cfg, process, expires, events, start, processed, failed, readings);
          CycleEndsWell(cfg, fetch, process, expires, w0, q.w, rounds + [last], q.processed, q.failed, q.readings);
  }

  lemma WholeCycleEndsWell<W, E>(cfg: JobConfig, fetch: (W, int) -> (FetchResult<E>, W),
                                 process: (W, E) -> (W, bool), expires: Option<nat>, w0: W)
    ensures EndsWell(cfg, fetch, process, expires, w0, Cycle(cfg, fetch, process, expires, w0, [], 0, 0, 0))
    ensures var e := Cycle(cfg, fetch, process, expires, w0, [], 0, 0, 0);
            e.readings == |e.rounds| + e.processed + e.failed + (if e.stop == FetchFailed then 1 else 0) &&
            (e.stop == ContextDone ==> expires.Some? && expires.value <= e.readings) &&
            (CutShort(e.rounds) && e.processed != cfg.maxItems && e.failed != cfg.maxFails ==>
               expires.Some? && expires.value <= e.readings) &&
            (expires.Some? ==> e.readings <= expires.value)
  {
    CycleEndsWell(cfg, fetch, process, expires, w0, w0, [], 0, 0, 0);
  }

  /**
   * The execution cycle. It ends for every fetch and process behaviour, a fetch that returns the same full batch
   * for ever included. The context is read once for each fetch and once for each event processed.
   */
  method Execute<W, E>(cfg: JobConfig, fetch: (W, int) -> (FetchResult<E>, W), process: (W, E) -> (W, bool),
                       expires: Option<nat>, w0: W)
      returns (w: W, rounds: seq<Round<W, E>>, processed: nat, failed: nat, readings: nat, stop: Stop)
    ensures Ended(w, rounds, processed, failed, readings, stop) == Cycle(cfg, fetch, process, expires, w0, [], 0, 0, 0)
    ensures EndsWell(cfg, fetch, process, expires, w0, Ended(w, rounds, processed, failed, readings, stop))
  {
    w, rounds, processed, failed, readings := w0, [], 0, 0, 0;
    while true
      invariant processed <= Max0(cfg.maxItems) && failed <= Max0(cfg.maxFails)
      invariant Cycle(cfg, fetch, process, expires, w, rounds, processed, failed, readings)
                == Cycle(cfg, fetch, process, expires, w0, [], 0, 0, 0)
      decreases Budget(cfg, expires, processed, failed, readings)
    {
      ghost var processed0, failed0, readings0 := processed, failed, readings;
      if processed >= cfg.maxItems {
        stop := ItemsReached;
        break;
      }
      if failed >= cfg.maxFails {
        stop := FailsReached;
        break;
      }
      if CtxDone(expires, readings) {
        stop := ContextDone;
        break;
      }
      readings := readings + 1;
      var (fetched, start) := fetch(w, cfg.batchSize);
      if fetched.FetchError? {
        w := start;
        stop := FetchFailed;
        break;
      }
      var events := fetched.events;
      var handled;
      w, handled, processed, failed, readings :=
        ProcessBatch(cfg, process, expires, start, events, processed, failed, readings);
      rounds := rounds + [Round(start, events, handled)];
      if events != [] {
        BatchSpends(cfg, process, expires, events, start, processed0, failed0, readings0);
      }
      if |events| == 0 {
        stop := NoEvents;
        break;
      }
      if |events| < cfg.batchSize {
        stop := ShortBatch;
        break;
      }
    }
    WholeCycleEndsWell(cfg, fetch, process, expires, w0);
  }
}
