/** The job that dispatches awaiting events, alone on the table: when it runs dry, nothing it could dispatch is left. */
module AwaitingJob {
  import opened EventModel
  import opened EventStore
  import opened Decisions
  import opened Runner

  /**
   * What one processing cycle works on. Sending may fail for any event, for expiry or for the broker's reasons;
   * the database stamps every update.
   */
  datatype World = World(rows: Rows, configs: map<string, Config>, now: Time, stamp: Time)

  /** ProcessPendingEvent without interference: true means no error was returned. */
  function Process(sends: Event -> bool, w: World, e: Event): (World, bool) {
    if e.eventType !in w.configs then (w, false)
    else if w.configs[e.eventType].isSuspended then (w, true)
    else
      var cmd := MarkAsDispatched(e.id, e.version, Active);
      if !Hits(w.rows, cmd) then (w, false)
      else (w.(rows := Exec(w.rows, Update(cmd, w.stamp))), sends(e))
  }

  /** A fetch reads awaiting events of the flow created up to its own reading of the clock, and changes no row. */
  ghost predicate FetchesPending(fetch: (World, int) -> (FetchResult<Event>, World), flowType: string) {
    forall w: World, n: int {:trigger fetch(w, n)} :: WellKeyed(w.rows) ==>
      var (batch, after) := fetch(w, n);
      after.rows == w.rows && after.configs == w.configs &&
      (batch.Batch? ==> n >= 0 && IsSelection(w.rows, FilterOf(PendingFinder, flowType, after.now), n, batch.events))
  }

  /** What became of one fetched event. */
  predicate Settled(w: World, e: Event) {
    && e.id in w.rows
    && (w.rows[e.id].status == Dispatched
        || (e.eventType in w.configs && w.configs[e.eventType].isSuspended)
        || e.eventType !in w.configs)
  }

  function Worker(sends: Event -> bool): (World, Event) -> (World, bool) {
    (w, e) => Process(sends, w, e)
  }

  lemma ProcessFrame(sends: Event -> bool, w: World, e: Event)
    requires WellKeyed(w.rows)
    ensures var v := Process(sends, w, e).0;
            WellKeyed(v.rows) && v.configs == w.configs && v.rows.Keys == w.rows.Keys &&
            forall id :: id in w.rows && id != e.id ==> v.rows[id] == w.rows[id]
  {
  }

  /** Processing some events leaves the other rows and all configurations alone. */
  lemma {:induction false} FoldFrame(sends: Event -> bool, w: World, es: seq<Event>)
    requires WellKeyed(w.rows)
    ensures var v := Fold(Worker(sends), w, es);
            WellKeyed(v.rows) && v.configs == w.configs && v.rows.Keys == w.rows.Keys &&
            forall id :: id in w.rows && (forall i :: 0 <= i < |es| ==> es[i].id != id) ==> v.rows[id] == w.rows[id]
    decreases |es|
  {
    if es == [] {
    } else {
      var n := |es| - 1;
      FoldFrame(sends, w, es[..n]);
      ProcessFrame(sends, Fold(Worker(sends), w, es[..n]), es[n]);
      forall id | id in w.rows && (forall i :: 0 <= i < |es| ==> es[i].id != id)
        ensures Fold(Worker(sends), w, es).rows[id] == w.rows[id]
      {
        assert forall i :: 0 <= i < n ==> es[..n][i] == es[i];
        assert es[n].id != id;
      }
    }
  }

  ghost predicate AreCurrent(w: World, es: seq<Event>) {
    && (forall i :: 0 <= i < |es| ==> es[i].id in w.rows && w.rows[es[i].id] == es[i])
    && (forall i, j :: 0 <= i < j < |es| ==> es[i].id != es[j].id)
  }

  lemma ProcessSettles(sends: Event -> bool, w: World, e: Event)
    requires e.id in w.rows && w.rows[e.id] == e
    ensures Settled(Process(sends, w, e).0, e)
  {
  }

  lemma StaysSettled(sends: Event -> bool, w: World, e: Event, d: Event)
    requires Settled(w, d) && d.id != e.id
    ensures Settled(Process(sends, w, e).0, d)
  {
  }

  /** With nobody else writing, an event is still current when its turn comes. */
  lemma CurrentAtItsTurn(sends: Event -> bool, w: World, es: seq<Event>, n: nat)
    requires WellKeyed(w.rows) && AreCurrent(w, es) && n < |es|
    ensures var mid := Fold(Worker(sends), w, es[..n]);
            mid.configs == w.configs && es[n].id in mid.rows && mid.rows[es[n].id] == es[n]
  {
    FoldFrame(sends, w, es[..n]);
    assert forall i :: 0 <= i < n ==> es[..n][i] == es[i] && es[i].id != es[n].id;
  }

  /** So every processed event is settled. */
  lemma {:induction false} FoldSettles(sends: Event -> bool, w: World, es: seq<Event>)
    requires WellKeyed(w.rows) && AreCurrent(w, es)
    ensures forall i :: 0 <= i < |es| ==> Settled(Fold(Worker(sends), w, es), es[i])
    decreases |es|
  {
    if es == [] {
    } else {
      var n := |es| - 1;
      var mid := Fold(Worker(sends), w, es[..n]);
      FoldSettles(sends, w, es[..n]);
      CurrentAtItsTurn(sends, w, es, n);
      ProcessSettles(sends, mid, es[n]);
      forall i | 0 <= i < n ensures Settled(Fold(Worker(sends), w, es), es[i]) {
        assert es[..n][i] == es[i];
        StaysSettled(sends, mid, es[n], es[i]);
      }
    }
  }

  /** And a call fails only for a reason of its own: no configuration, or a message that could not be sent. */
  lemma {:induction false} FailsOnlyForItsOwnReason(sends: Event -> bool, w: World, es: seq<Event>, i: nat)
    requires WellKeyed(w.rows) && AreCurrent(w, es) && i < |es|
    ensures !Outcomes(Worker(sends), w, es)[i] <==>
            es[i].eventType !in w.configs || (!w.configs[es[i].eventType].isSuspended && !sends(es[i]))
    decreases |es|
  {
    var n := |es| - 1;
    if i < n {
      assert es[..n][i] == es[i];
      FailsOnlyForItsOwnReason(sends, w, es[..n], i);
    } else {
      CurrentAtItsTurn(sends, w, es, n);
    }
  }

  /** Every round starts from well-keyed rows, since neither fetching nor processing rekeys them. */
  lemma {:induction false} RoundsStayKeyed(fetch: (World, int) -> (FetchResult<Event>, World), flowType: string,
                                           sends: Event -> bool, size: int, w0: World,
                                           rounds: seq<Round<World, Event>>, i: nat)
    requires FetchesPending(fetch, flowType) && WellKeyed(w0.rows) && i < |rounds|
    requires Chained(fetch, Worker(sends), size, w0, rounds)
    ensures WellKeyed(Before(Worker(sends), w0, rounds, i).rows) && WellKeyed(rounds[i].start.rows)
    ensures rounds[i].start.rows == Before(Worker(sends), w0, rounds, i).rows
    ensures IsSelection(rounds[i].start.rows, FilterOf(PendingFinder, flowType, rounds[i].start.now), Max0(size),
            rounds[i].events)
    ensures size >= 0
  {
    if i > 0 {
      RoundsStayKeyed(fetch, flowType, sends, size, w0, rounds, i - 1);
      FoldFrame(sends, rounds[i - 1].start, Prefix(rounds[i - 1]));
    }
    assert Link(fetch, Worker(sends), size, w0, rounds, i);
    var from := Before(Worker(sends), w0, rounds, i);
    var (batch, after) := fetch(from, size);
    assert batch == Batch(rounds[i].events) && after == rounds[i].start;
  }

  /** A batch size that is not positive never fetches an event. */
  lemma {:induction false} NothingFetched(fetch: (World, int) -> (FetchResult<Event>, World), flowType: string,
                                          sends: Event -> bool, size: int, w0: World, rounds: seq<Round<World, Event>>)
    requires FetchesPending(fetch, flowType) && WellKeyed(w0.rows) && size <= 0
    requires Chained(fetch, Worker(sends), size, w0, rounds)
    ensures Before(Worker(sends), w0, rounds, |rounds|).rows == w0.rows
    decreases |rounds|
  {
    if rounds == [] {
    } else {
      var n := |rounds| - 1;
      forall i | 0 <= i < n ensures Link(fetch, Worker(sends), size, w0, rounds[..n], i) {
        assert Link(fetch, Worker(sends), size, w0, rounds, i);
        assert Before(Worker(sends), w0, rounds[..n], i) == Before(Worker(sends), w0, rounds, i);
      }
      NothingFetched(fetch, flowType, sends, size, w0, rounds[..n]);
      RoundsStayKeyed(fetch, flowType, sends, size, w0, rounds, n);
      assert Before(Worker(sends), w0, rounds[..n], n) == Before(Worker(sends), w0, rounds, n);
      assert rounds[n].events == [];
    }
  }

  /** No event that matched the last fetch is left over. */
  ghost predicate Drained(flowType: string, last: World, w: World) {
    forall id :: id in last.rows && Matches(FilterOf(PendingFinder, flowType, last.now), last.rows[id]) ==>
      id in w.rows && (w.rows[id].status == Dispatched || last.rows[id].eventType !in w.configs
                       || w.configs[last.rows[id].eventType].isSuspended)
  }

  lemma LastRoundDrains(flowType: string, sends: Event -> bool, size: nat, r: Round<World, Event>)
    requires WellKeyed(r.start.rows) && r.handled == |r.events| && (|r.events| < size || size == 0)
    requires IsSelection(r.start.rows, FilterOf(PendingFinder, flowType, r.start.now), size, r.events)
    ensures size > 0 ==> Drained(flowType, r.start, EndOf(Worker(sends), r))
  {
    if size > 0 {
      assert r.events[..r.handled] == r.events;
      assert AreCurrent(r.start, r.events);
      FoldSettles(sends, r.start, r.events);
      FoldFrame(sends, r.start, r.events);
      forall id | id in r.start.rows && Matches(FilterOf(PendingFinder, flowType, r.start.now), r.start.rows[id])
        ensures exists i ::
          0 <= i < |r.events| && r.events[i] == r.start.rows[id] && Settled(EndOf(Worker(sends), r), r.events[i])
      {
        assert r.start.rows[id] in r.events;
      }
    }
  }

  /**
   * When the cycle ends because a fetch came back short or empty and that batch was worked off, every event matching
   * the last fetch is dispatched, or of a suspended type, or of a type without a configuration. So it ends whenever no
   * limit is reached, no fetch fails and the context outlives the cycle. A batch size that is not positive moves
   * nothing.
   */
  method Execute(cfg: JobConfig, flowType: string, fetch: (World, int) -> (FetchResult<Event>, World),
                 sends: Event -> bool, expires: Option<nat>, w0: World)
      returns (w: World, last: World, cutShort: bool, processed: nat, failed: nat, readings: nat, stop: Stop)
    requires FetchesPending(fetch, flowType) && WellKeyed(w0.rows)
    ensures cfg.batchSize > 0 && (stop == NoEvents || stop == ShortBatch) && !cutShort ==> Drained(flowType, last, w)
    ensures cfg.batchSize <= 0 ==> w.rows == w0.rows
    ensures (cfg.batchSize > 0 && stop != FetchFailed && processed < cfg.maxItems && failed < cfg.maxFails
             && (expires.None? || readings < expires.value))
            ==> Drained(flowType, last, w)
    ensures cutShort ==>
              processed == cfg.maxItems || failed == cfg.maxFails || (expires.Some? && expires.value <= readings)
    ensures stop == ContextDone ==> expires.Some? && expires.value <= readings
    ensures expires.Some? ==> readings <= expires.value
    ensures processed <= Max0(cfg.maxItems) && failed <= Max0(cfg.maxFails)
  {
    var rounds;
    w, rounds, processed, failed, readings, stop := Runner.Execute(cfg, fetch, Worker(sends), expires, w0);
    last, cutShort := w0, false;
    if cfg.batchSize <= 0 {
      NothingFetched(fetch, flowType, sends, cfg.batchSize, w0, rounds);
      var _ := fetch(Before(Worker(sends), w0, rounds, |rounds|), cfg.batchSize);
    }
    if rounds != [] {
      var r := rounds[|rounds| - 1];
      last, cutShort := r.start, r.handled < |r.events|;
      RoundsStayKeyed(fetch, flowType, sends, cfg.batchSize, w0, rounds, |rounds| - 1);
      assert Link(fetch, Worker(sends), cfg.batchSize, w0, rounds, |rounds| - 1);
      if (stop == NoEvents || stop == ShortBatch) && !cutShort {
        LastRoundDrains(flowType, sends, cfg.batchSize, r);
      }
    }
  }
}
