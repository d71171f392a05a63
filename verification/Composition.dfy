/** How the parts fit: the service methods and the job each stand for steps of the protocol. */
module Composition {
  import opened EventModel
  import opened EventStore
  import opened Decisions
  import opened Protocol
  import LifecycleService
  import AwaitingJob

  /** The write a step makes to the event table, if it makes one. */
  function WritesOf(s: State, step: Step): seq<Write>
    requires Enabled(s, step)
  {
    match step
    case InsertRow(op, stamp) =>
      var o := s.ops[op];
      [Insert(InitiationFor(o.id, o.request, o.cfg, o.at), stamp)]
    case Attempt(op, stamp) => [Update(CommandOf(s.ops[op].snap, s.ops[op].cause), stamp)]
    case _ => []
  }

  ghost function RunWrites(s: State, steps: seq<Step>): seq<Write>
    decreases |steps|
  {
    if steps == [] || !Enabled(s, steps[0]) then []
    else WritesOf(s, steps[0]) + RunWrites(Apply(s, steps[0]), steps[1..])
  }

  lemma StepIsItsWrites(s: State, step: Step)
    requires Enabled(s, step)
    ensures Apply(s, step).rows == ExecAll(s.rows, WritesOf(s, step))
  {
  }

  /** A run changes the event table by its inserts and versioned updates, in order, and by nothing else. */
  lemma {:induction false} RunIsItsWrites(s: State, steps: seq<Step>, t: State)
    requires Run(s, steps, t)
    ensures t.rows == ExecAll(s.rows, RunWrites(s, steps))
    decreases |steps|
  {
    if steps == [] {
    } else {
      var m := Apply(s, steps[0]);
      StepIsItsWrites(s, steps[0]);
      RunIsItsWrites(m, steps[1..], t);
      ExecAllAppend(s.rows, WritesOf(s, steps[0]), RunWrites(m, steps[1..]));
    }
  }

  lemma SnapshotNotAhead(s: State, op: OpId)
    requires Inv(s) && op in s.ops && s.ops[op].Committing?
    ensures Permissible(s.ops[op].snap, s.ops[op].cause)
    ensures LifecycleService.FromSnapshot(s.rows, CommandOf(s.ops[op].snap, s.ops[op].cause))
  {
    var o := s.ops[op];
    OpIsOk(s, op);
    assert HistoryOk(s.rows, s.history, s.now, o.snap.id);
    RowOfHistory(s.rows, s.history, s.now, o.snap.id);
    CommandTargetsSnapshot(o.snap, o.cause);
  }

  /**
   * The service's retry loop is the protocol's Attempt: started in a reachable state, with whatever other operations
   * do before its first try, the loop may be called, it succeeds exactly when the operation commits then, and it
   * leaves the very rows that commit leaves.
   */
  lemma RetryLoopIsAttempt(s: State, op: OpId, steps: seq<Step>, m: State, tries: LifecycleService.Tries)
    requires Reachable(s) && op in s.ops && s.ops[op].Committing?
    requires Run(s, steps, m) && op in m.ops && m.ops[op] == s.ops[op]
    requires tries.others(0) == RunWrites(s, steps)
    ensures Permissible(s.ops[op].snap, s.ops[op].cause)
    ensures var cmd := CommandOf(s.ops[op].snap, s.ops[op].cause);
            LifecycleService.FromSnapshot(s.rows, cmd) &&
            (LifecycleService.FirstTryHits(s.rows, cmd, tries) <==> Commits(m, op)) &&
            (Commits(m, op) ==>
               LifecycleService.AfterTries(s.rows, cmd, tries) == Apply(m, Attempt(op, tries.stamps(0))).rows)
  {
    ReachableInv(s);
    SnapshotNotAhead(s, op);
    RunIsItsWrites(s, steps, m);
    if Commits(m, op) {
      StepIsItsWrites(m, Attempt(op, tries.stamps(0)));
    }
  }

  /** Nobody else writes between the tries. */
  ghost predicate Alone(tries: LifecycleService.Tries) {
    forall n: nat {:trigger tries.others(n)} :: tries.others(n) == []
  }

  lemma {:induction false} NoInterference(tries: LifecycleService.Tries, n: nat)
    requires Alone(tries)
    ensures LifecycleService.Interference(tries, n) == []
  {
    if n > 0 {
      NoInterference(tries, n - 1);
    }
  }

  /**
   * What the job does with one event is what the service's ProcessPendingEvent does when nobody interferes: the same
   * rows, and an error exactly when the service reports anything but success.
   */
  lemma JobProcessIsService(sends: Event -> bool, w: AwaitingJob.World, e: Event, tries: LifecycleService.Tries)
    requires Alone(tries) && tries.stamps(0) == w.stamp && e.status == AwaitingProcessing
    ensures var (v, ok) := AwaitingJob.Process(sends, w, e);
            if e.eventType !in w.configs then v == w && !ok
            else if w.configs[e.eventType].isSuspended then v == w && ok
            else
              var cmd := CommandOf(e, Dispatch(PendingFinder, w.configs[e.eventType]));
              v == w.(rows := LifecycleService.AfterTries(w.rows, cmd, tries)) &&
              (ok <==> LifecycleService.FirstTryHits(w.rows, cmd, tries) && sends(e))
  {
    NoInterference(tries, LifecycleService.MAX_RETRIES);
  }

  /** What the operation is doing stays put while others run. */
  ghost predicate WaitsThrough(s: State, steps: seq<Step>, t: State, op: OpId) {
    Run(s, steps, t) && op in s.ops && op in t.ops && t.ops[op] == s.ops[op]
  }

  lemma BuildAndInsert(s: State, op: OpId, r: PublishRequest, rest: seq<PublishRequest>, id: EventId, cfg: Config)
    requires op in s.ops && s.ops[op] == Publishing([r] + rest) && ValidConfig(cfg)
    ensures Enabled(s, BuildPublish(op, id, cfg))
    ensures var b := Apply(s, BuildPublish(op, id, cfg));
            b == s.(ops := b.ops) && op in b.ops && b.ops[op] == Initiating(id, r, cfg, s.now, rest)
  {
    assert ([r] + rest)[1..] == rest;
  }

  lemma InsertMakes(s: State, op: OpId, id: EventId, r: PublishRequest, cfg: Config, at: Time,
                    rest: seq<PublishRequest>, stamp: Time)
    requires op in s.ops && s.ops[op] == Initiating(id, r, cfg, at, rest) && ValidConfig(cfg)
    ensures Enabled(s, InsertRow(op, stamp))
    ensures var t := Apply(s, InsertRow(op, stamp));
            t.payloads == s.payloads && op in t.ops &&
            t.rows == Exec(s.rows, Insert(InitiationFor(id, r, cfg, at), stamp)) &&
            t.ops[op] == if id in s.rows then Publishing(rest) else Inserted(id, r.payload, rest)
  {
  }

  lemma SaveStores(s: State, op: OpId, id: EventId, payload: string, rest: seq<PublishRequest>)
    requires op in s.ops && s.ops[op] == Inserted(id, payload, rest)
    ensures Enabled(s, SavePayload(op))
    ensures var t := Apply(s, SavePayload(op)); t.rows == s.rows && t.payloads == s.payloads[id := payload]
  {
  }

  /**
   * The service's Publish is BuildPublish, InsertRow and, for the creator, SavePayload: with whatever others do before
   * the insert and between insert and payload, the tables end as Publish says, the payload last.
   */
  lemma PublishIsItsSteps(s: State, op: OpId, r: PublishRequest, rest: seq<PublishRequest>, id: EventId, cfg: Config,
                          xs: seq<Step>, m: State, stamp: Time, ys: seq<Step>, u: State)
    requires op in s.ops && s.ops[op] == Publishing([r] + rest) && ValidConfig(cfg)
    requires var b := Apply(s, BuildPublish(op, id, cfg)); WaitsThrough(b, xs, m, op)
    requires Enabled(m, InsertRow(op, stamp)) && WaitsThrough(Apply(m, InsertRow(op, stamp)), ys, u, op)
    ensures var b, i := Apply(s, BuildPublish(op, id, cfg)), Apply(m, InsertRow(op, stamp));
            var env := LifecycleService.PublishEnv(id, Some(cfg), s.now, stamp, RunWrites(b, xs), RunWrites(i, ys));
            var t := if id in m.rows then u else Apply(u, SavePayload(op));
            (id !in m.rows ==> Enabled(u, SavePayload(op))) &&
            LifecycleService.Tables(t.rows, t.payloads) ==
            LifecycleService.Published(LifecycleService.Tables(s.rows, u.payloads), r, env)
  {
    BuildAndInsert(s, op, r, rest, id, cfg);
    var b := Apply(s, BuildPublish(op, id, cfg));
    RunIsItsWrites(b, xs, m);
    InsertMakes(m, op, id, r, cfg, s.now, rest, stamp);
    var i := Apply(m, InsertRow(op, stamp));
    RunIsItsWrites(i, ys, u);
    if id !in m.rows {
      SaveStores(u, op, id, r.payload, rest);
    }
  }
}
