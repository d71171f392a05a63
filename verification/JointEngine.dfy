/**
 * The event protocol and the configuration cache of one engine instance on one clock. A job that found an event loads
 * the configuration of its type through the cache, as a task of its own, before it decides on the dispatch. The other
 * operations may use any configuration, which only adds runs.
 */
module JointEngine {
  import opened EventModel
  import opened EventStore
  import opened Decisions
  import opened Lineage
  import P = Protocol
  import C = ConfigProtocol
  import ConfigService

  /**
   * Loads under way or done, by the operation that asked. As auxiliary data, the load behind each committed dispatch,
   * by event and place in the event's history.
   */
  datatype Joint = Joint(
    engine: P.State,
    configs: C.State,
    loads: map<P.OpId, C.TaskId>,
    decidedBy: map<(EventId, int), C.TaskId>)

  datatype Step =
    | Tick(to: Time)
    | OfEngine(p: P.Step)
    | OfConfigs(c: C.Step)
    | BeginLoad(op: P.OpId, task: C.TaskId)
    | DecideFound(op: P.OpId)

  function Init(rows: ConfigService.Configs, now: Time): Joint {
    Joint(P.Init(now), C.Init(rows, now), map[], map[])
  }

  /** An event found for dispatch; reactivation asks for no configuration. */
  predicate WantsConfig(o: P.Op) {
    o.Found? && o.finder != ExpiredSuspendedFinder
  }

  predicate Enabled(s: Joint, step: Step) {
    match step
    case Tick(to) => P.Enabled(s.engine, P.Tick(to)) && C.Enabled(s.configs, C.Tick(to))
    case OfEngine(p) =>
      P.Enabled(s.engine, p) && !p.Tick? && !(p.Decide? && WantsConfig(s.engine.ops[p.op]))
    case OfConfigs(c) => C.Enabled(s.configs, c) && !c.Tick?
    case BeginLoad(op, task) =>
      op in s.engine.ops && WantsConfig(s.engine.ops[op]) && op !in s.loads
      && C.Enabled(s.configs, C.Begin(task, s.engine.ops[op].snap.eventType))
    case DecideFound(op) =>
      op in s.engine.ops && WantsConfig(s.engine.ops[op]) && op in s.loads
      && s.loads[op] in s.configs.tasks && s.configs.tasks[s.loads[op]].Returned?
      && P.Enabled(s.engine, P.Decide(op, s.configs.tasks[s.loads[op]].value))
  }

  function Live(loads: map<P.OpId, C.TaskId>, ops: map<P.OpId, P.Op>): map<P.OpId, C.TaskId> {
    map op | op in loads && op in ops :: loads[op]
  }

  function Recorded(s: Joint, op: P.OpId): map<(EventId, int), C.TaskId>
    requires P.Commits(s.engine, op)
  {
    if s.engine.ops[op].cause.Dispatch? && op in s.loads
    then var e := s.engine.ops[op].snap; s.decidedBy[(e.id, e.version) := s.loads[op]]
    else s.decidedBy
  }

  function AfterEngine(s: Joint, p: P.Step): Joint
    requires P.Enabled(s.engine, p)
  {
    var next := P.Apply(s.engine, p);
    s.(engine := next, loads := Live(s.loads, next.ops),
       decidedBy := if p.Attempt? && P.Commits(s.engine, p.op) then Recorded(s, p.op) else s.decidedBy)
  }

  function Apply(s: Joint, step: Step): Joint
    requires Enabled(s, step)
  {
    match step
    case Tick(to) => s.(engine := P.Apply(s.engine, P.Tick(to)), configs := C.Apply(s.configs, C.Tick(to)))
    case OfEngine(p) => AfterEngine(s, p)
    case OfConfigs(c) => s.(configs := C.Apply(s.configs, c))
    case BeginLoad(op, task) =>
      s.(configs := C.Apply(s.configs, C.Begin(task, s.engine.ops[op].snap.eventType)), loads := s.loads[op := task])
    case DecideFound(op) => AfterEngine(s, P.Decide(op, s.configs.tasks[s.loads[op]].value))
  }

  ghost predicate Run(s: Joint, steps: seq<Step>, t: Joint)
    decreases |steps|
  {
    if steps == [] then s == t
    else Enabled(s, steps[0]) && Run(Apply(s, steps[0]), steps[1..], t)
  }

  ghost predicate Reachable(s: Joint) {
    exists rows, now, steps {:trigger Run(Init(rows, now), steps, s)} :: Run(Init(rows, now), steps, s)
  }

  // ---------------------------------------------------------------------------------------------
  // Every dispatch rests on its own load
  // ---------------------------------------------------------------------------------------------

  predicate LoadFor(o: C.Task, key: string) {
    match o
    case Starting(k) => k == key
    case Peeked(k, _) => k == key
    case Stale(k) => k == key
    case Missing(k) => k == key
    case Fetched(k, _, _) => k == key
    case Returned(k, _, _, _, _) => k == key
    case Writing(_) => false
    case Evicting(_) => false
    case Finished => true
  }

  predicate Gave(tasks: map<C.TaskId, C.Task>, task: C.TaskId, key: string, cfg: Config) {
    task in tasks && tasks[task].Returned? && tasks[task].key == key && tasks[task].value == cfg
  }

  predicate OpLoadOk(loads: map<P.OpId, C.TaskId>, tasks: map<C.TaskId, C.Task>, op: P.OpId, o: P.Op) {
    match o
    case Found(_, e) => op in loads ==> loads[op] in tasks && LoadFor(tasks[loads[op]], e.eventType)
    case Committing(Dispatch(_, cfg), e) => op in loads && Gave(tasks, loads[op], e.eventType, cfg)
    case _ => true
  }

  ghost predicate LoadsOk(loads: map<P.OpId, C.TaskId>, tasks: map<C.TaskId, C.Task>, ops: map<P.OpId, P.Op>) {
    && loads.Keys <= ops.Keys
    && forall op :: op in ops ==> OpLoadOk(loads, tasks, op, ops[op])
  }

  predicate IsDispatch(h: P.Histories, id: EventId, k: int) {
    id in h && 0 <= k < |h[id]| && h[id][k].cause.Dispatch?
  }

  ghost predicate Attributed(h: P.Histories, tasks: map<C.TaskId, C.Task>, origin: map<(EventId, int), C.TaskId>) {
    forall id, k :: IsDispatch(h, id, k) ==>
      (id, k) in origin && Gave(tasks, origin[(id, k)], h[id][k].row.eventType, h[id][k].cause.cfg)
  }

  ghost predicate Inv(s: Joint) {
    && P.Inv(s.engine)
    && LoadsOk(s.loads, s.configs.tasks, s.engine.ops)
    && Attributed(s.engine.history, s.configs.tasks, s.decidedBy)
  }

  /** A load keeps its key, and what it returned stays. */
  lemma TasksKeepKeys(c: C.State, step: C.Step, x: C.TaskId, key: string)
    requires C.Enabled(c, step) && x in c.tasks
    ensures var t := C.Apply(c, step);
            x in t.tasks && (LoadFor(c.tasks[x], key) ==> LoadFor(t.tasks[x], key)) &&
            (c.tasks[x].Returned? ==> t.tasks[x] == c.tasks[x])
  {
  }

  lemma ConfigsKeepLoads(s: Joint, step: C.Step)
    requires C.Enabled(s.configs, step) && LoadsOk(s.loads, s.configs.tasks, s.engine.ops)
    ensures LoadsOk(s.loads, C.Apply(s.configs, step).tasks, s.engine.ops)
  {
    var t := C.Apply(s.configs, step);
    forall op | op in s.engine.ops ensures OpLoadOk(s.loads, t.tasks, op, s.engine.ops[op]) {
      assert OpLoadOk(s.loads, s.configs.tasks, op, s.engine.ops[op]);
      if op in s.loads && s.loads[op] in s.configs.tasks {
        if s.engine.ops[op].Found? || s.engine.ops[op].Committing? {
          TasksKeepKeys(s.configs, step, s.loads[op], s.engine.ops[op].snap.eventType);
        }
      }
    }
  }

  lemma ConfigsKeepAttribution(h: P.Histories, c: C.State, origin: map<(EventId, int), C.TaskId>, step: C.Step)
    requires C.Enabled(c, step) && Attributed(h, c.tasks, origin)
    ensures Attributed(h, C.Apply(c, step).tasks, origin)
  {
    forall id, k | IsDispatch(h, id, k)
      ensures (id, k) in origin
              && Gave(C.Apply(c, step).tasks, origin[(id, k)], h[id][k].row.eventType, h[id][k].cause.cfg)
    {
      TasksKeepKeys(c, step, origin[(id, k)], h[id][k].row.eventType);
    }
  }

  /** Only a decision on a found event builds a dispatch, and only a search finds one. */
  lemma EngineStepOps(s: P.State, p: P.Step, op: P.OpId)
    requires P.Enabled(s, p) && op in P.Apply(s, p).ops && (op in s.ops ==> P.Apply(s, p).ops[op] != s.ops[op])
    ensures P.Apply(s, p).ops[op].Found? ==> op !in s.ops
    ensures P.Apply(s, p).ops[op].Committing? && P.Apply(s, p).ops[op].cause.Dispatch? ==>
              p.Decide? && p.op == op && op in s.ops && WantsConfig(s.ops[op])
              && P.Apply(s, p).ops[op].snap == s.ops[op].snap && P.Apply(s, p).ops[op].cause.cfg == p.cfg
  {
  }

  lemma EngineKeepsLoads(s: Joint, p: P.Step)
    requires P.Enabled(s.engine, p) && LoadsOk(s.loads, s.configs.tasks, s.engine.ops)
    requires p.Decide? && WantsConfig(s.engine.ops[p.op]) ==>
               p.op in s.loads && Gave(s.configs.tasks, s.loads[p.op], s.engine.ops[p.op].snap.eventType, p.cfg)
    ensures LoadsOk(AfterEngine(s, p).loads, s.configs.tasks, AfterEngine(s, p).engine.ops)
  {
    var t := AfterEngine(s, p);
    forall op | op in t.engine.ops ensures OpLoadOk(t.loads, s.configs.tasks, op, t.engine.ops[op]) {
      if op in s.engine.ops {
        assert OpLoadOk(s.loads, s.configs.tasks, op, s.engine.ops[op]);
      }
      if op !in s.engine.ops || t.engine.ops[op] != s.engine.ops[op] {
        EngineStepOps(s.engine, p, op);
      }
    }
  }

  /** Where a commit appends, and what. */
  lemma CommitAppends(s: P.State, op: P.OpId, stamp: Time)
    requires P.Inv(s) && P.Commits(s, op)
    ensures var e, n := s.ops[op].snap, P.NewEntry(s.ops[op], stamp, s.now);
            e.id in s.history && e.version == |s.history[e.id]| &&
            P.ApplyAttempt(s, op, stamp).history == s.history[e.id := s.history[e.id] + [n]] &&
            n.cause == s.ops[op].cause && n.row.eventType == e.eventType
  {
    P.SnapshotIsCurrent(s, op);
    P.CommitShape(s, op, stamp);
    EntryKeepsType(s.ops[op], stamp, s.now);
  }

  lemma EntryKeepsType(o: P.Op, stamp: Time, now: Time)
    requires o.Committing? && Permissible(o.snap, o.cause)
    ensures P.NewEntry(o, stamp, now).cause == o.cause && P.NewEntry(o, stamp, now).row.eventType == o.snap.eventType
  {
  }

  lemma CommittingLoadGave(s: Joint, op: P.OpId)
    requires LoadsOk(s.loads, s.configs.tasks, s.engine.ops) && op in s.engine.ops
    requires s.engine.ops[op].Committing? && s.engine.ops[op].cause.Dispatch?
    ensures op in s.loads
    ensures Gave(s.configs.tasks, s.loads[op], s.engine.ops[op].snap.eventType, s.engine.ops[op].cause.cfg)
  {
    assert OpLoadOk(s.loads, s.configs.tasks, op, s.engine.ops[op]);
  }

  /** An entry is appended; if it is a dispatch, the load behind it is recorded. */
  lemma AppendKeepsAttribution(h: P.Histories, tasks: map<C.TaskId, C.Task>, origin: map<(EventId, int), C.TaskId>,
                               id: EventId, n: Entry, next: map<(EventId, int), C.TaskId>)
    requires Attributed(h, tasks, origin) && id in h
    requires if n.cause.Dispatch? then
               exists x :: Gave(tasks, x, n.row.eventType, n.cause.cfg) && next == origin[(id, |h[id]|) := x]
             else next == origin
    ensures Attributed(h[id := h[id] + [n]], tasks, next)
  {
    var g := h[id := h[id] + [n]];
    forall i, k | IsDispatch(g, i, k)
      ensures (i, k) in next && Gave(tasks, next[(i, k)], g[i][k].row.eventType, g[i][k].cause.cfg)
    {
      if i != id || k < |h[id]| {
        assert IsDispatch(h, i, k);
      }
    }
  }

  lemma CommitKeepsAttribution(s: Joint, op: P.OpId, stamp: Time)
    requires Inv(s) && P.Commits(s.engine, op)
    ensures Attributed(P.ApplyAttempt(s.engine, op, stamp).history, s.configs.tasks, Recorded(s, op))
  {
    var o := s.engine.ops[op];
    CommitAppends(s.engine, op, stamp);
    if o.cause.Dispatch? {
      CommittingLoadGave(s, op);
    }
    AppendKeepsAttribution(s.engine.history, s.configs.tasks, s.decidedBy, o.snap.id,
                           P.NewEntry(o, stamp, s.engine.now), Recorded(s, op));
  }

  lemma InsertKeepsAttribution(s: Joint, op: P.OpId, stamp: Time)
    requires Inv(s) && P.Enabled(s.engine, P.InsertRow(op, stamp))
    ensures Attributed(P.ApplyInsert(s.engine, op, stamp).history, s.configs.tasks, s.decidedBy)
  {
    var g := P.ApplyInsert(s.engine, op, stamp).history;
    forall i, k | IsDispatch(g, i, k)
      ensures (i, k) in s.decidedBy
              && Gave(s.configs.tasks, s.decidedBy[(i, k)], g[i][k].row.eventType, g[i][k].cause.cfg)
    {
      assert IsDispatch(s.engine.history, i, k);
    }
  }

  lemma EngineKeepsAttribution(s: Joint, p: P.Step)
    requires Inv(s) && P.Enabled(s.engine, p)
    ensures var t := AfterEngine(s, p); Attributed(t.engine.history, s.configs.tasks, t.decidedBy)
  {
    if p.Attempt? {
      if P.Commits(s.engine, p.op) {
        CommitKeepsAttribution(s, p.op, p.stamp);
      }
    } else if p.InsertRow? {
      InsertKeepsAttribution(s, p.op, p.stamp);
    } else {
      P.TimeAdvances(s.engine, p);
    }
  }

  lemma EngineKeepsInv(s: Joint, p: P.Step)
    requires Inv(s) && P.Enabled(s.engine, p)
    requires p.Decide? && WantsConfig(s.engine.ops[p.op]) ==>
               p.op in s.loads && Gave(s.configs.tasks, s.loads[p.op], s.engine.ops[p.op].snap.eventType, p.cfg)
    ensures Inv(AfterEngine(s, p))
  {
    P.StepKeepsInv(s.engine, p);
    EngineKeepsLoads(s, p);
    EngineKeepsAttribution(s, p);
  }

  lemma BeginKeepsLoads(s: Joint, op: P.OpId, task: C.TaskId)
    requires Enabled(s, BeginLoad(op, task)) && LoadsOk(s.loads, s.configs.tasks, s.engine.ops)
    ensures var t := Apply(s, BeginLoad(op, task)); LoadsOk(t.loads, t.configs.tasks, t.engine.ops)
  {
    ConfigsKeepLoads(s, C.Begin(task, s.engine.ops[op].snap.eventType));
  }

  lemma FoundLoadGave(s: Joint, op: P.OpId)
    requires LoadsOk(s.loads, s.configs.tasks, s.engine.ops) && Enabled(s, DecideFound(op))
    ensures Gave(s.configs.tasks, s.loads[op], s.engine.ops[op].snap.eventType, s.configs.tasks[s.loads[op]].value)
  {
    assert OpLoadOk(s.loads, s.configs.tasks, op, s.engine.ops[op]);
  }

  /** The step the cache takes with a joint step, if it takes one. */
  function CacheStep(s: Joint, step: Step): Option<C.Step>
    requires Enabled(s, step)
  {
    match step
    case Tick(to) => Some(C.Tick(to))
    case OfConfigs(c) => Some(c)
    case BeginLoad(op, task) => Some(C.Begin(task, s.engine.ops[op].snap.eventType))
    case _ => None
  }

  lemma CacheStepIsApplied(s: Joint, step: Step)
    requires Enabled(s, step)
    ensures match CacheStep(s, step)
            case None => Apply(s, step).configs == s.configs
            case Some(c) => C.Enabled(s.configs, c) && Apply(s, step).configs == C.Apply(s.configs, c)
  {
  }

  lemma StepKeepsInv(s: Joint, step: Step)
    requires Inv(s) && Enabled(s, step)
    ensures Inv(Apply(s, step))
  {
    match step
    case Tick(to) =>
      P.StepKeepsInv(s.engine, P.Tick(to));
      ConfigsKeepLoads(s, C.Tick(to));
      ConfigsKeepAttribution(s.engine.history, s.configs, s.decidedBy, C.Tick(to));
    case OfEngine(p) => EngineKeepsInv(s, p);
    case OfConfigs(c) =>
      ConfigsKeepLoads(s, c);
      ConfigsKeepAttribution(s.engine.history, s.configs, s.decidedBy, c);
    case BeginLoad(op, task) =>
      BeginKeepsLoads(s, op, task);
      ConfigsKeepAttribution(s.engine.history, s.configs, s.decidedBy, C.Begin(task, s.engine.ops[op].snap.eventType));
    case DecideFound(op) =>
      FoundLoadGave(s, op);
      EngineKeepsInv(s, P.Decide(op, s.configs.tasks[s.loads[op]].value));
  }

  lemma {:induction false} RunKeepsInv(s: Joint, steps: seq<Step>, t: Joint)
    requires Inv(s) && Run(s, steps, t)
    ensures Inv(t)
    decreases |steps|
  {
    if steps == [] {
    } else {
      StepKeepsInv(s, steps[0]);
      RunKeepsInv(Apply(s, steps[0]), steps[1..], t);
    }
  }

  lemma ReachableInv(s: Joint)
    requires Reachable(s)
    ensures Inv(s)
  {
    var rows, now, steps :| Run(Init(rows, now), steps, s);
    P.InitInv(now);
    RunKeepsInv(Init(rows, now), steps, s);
  }

  /** Every dispatch that committed was decided on the configuration its own load of the event's type returned. */
  lemma EveryDispatchHasItsLoad(s: Joint, id: EventId, k: int)
    requires Reachable(s) && IsDispatch(s.engine.history, id, k)
    ensures (id, k) in s.decidedBy
    ensures var n := s.engine.history[id][k];
            Gave(s.configs.tasks, s.decidedBy[(id, k)], n.row.eventType, n.cause.cfg) && !n.cause.cfg.isSuspended
  {
    ReachableInv(s);
    assert P.HistoryOk(s.engine.rows, s.engine.history, s.engine.now, id);
    DispatchWasActive(id, s.engine.history[id], k);
  }

  // ---------------------------------------------------------------------------------------------
  // Suspension stops dispatch
  // ---------------------------------------------------------------------------------------------

  /** A run during which the type's row stays suspended: nobody unsuspends it or writes an active configuration. */
  ghost predicate SuspendedRun(s: Joint, steps: seq<Step>, t: Joint, key: string)
    decreases |steps|
  {
    if steps == [] then s == t
    else
      && Enabled(s, steps[0]) && C.SuspendedRow(Apply(s, steps[0]).configs, key)
      && SuspendedRun(Apply(s, steps[0]), steps[1..], t, key)
  }

  /** A dispatch of the type that the later history holds and the earlier does not. */
  predicate NewDispatch(earlier: P.Histories, later: P.Histories, id: EventId, k: int, key: string) {
    && IsDispatch(later, id, k) && later[id][k].row.eventType == key
    && (id in earlier ==> |earlier[id]| <= k)
  }

  /** All new dispatches of the type rest on loads begun before. */
  ghost predicate OnlyEarly(earlier: P.Histories, before: set<C.TaskId>, h: P.Histories,
                            origin: map<(EventId, int), C.TaskId>, key: string) {
    forall id, k :: NewDispatch(earlier, h, id, k, key) ==> (id, k) in origin && origin[(id, k)] in before
  }

  lemma StepKeepsQuiet(before: set<C.TaskId>, s: Joint, step: Step, key: string)
    requires C.Quiet(before, s.configs, key) && Enabled(s, step) && C.SuspendedRow(Apply(s, step).configs, key)
    ensures C.Quiet(before, Apply(s, step).configs, key)
  {
    CacheStepIsApplied(s, step);
    match CacheStep(s, step)
    case None =>
    case Some(c) => C.StepKeepsSettled(before, s.configs, c, key, C.IsSuspended);
  }

  lemma ActiveLoadIsEarly(before: set<C.TaskId>, c: C.State, x: C.TaskId, key: string, cfg: Config)
    requires C.Quiet(before, c, key) && Gave(c.tasks, x, key, cfg) && !cfg.isSuspended
    ensures x in before
  {
    assert x !in before ==> C.LateLoad(before, c, x, key);
  }

  /** While suspension is in force, whoever commits a dispatch of the type began its load before. */
  lemma CommitterLoadedEarly(before: set<C.TaskId>, s: Joint, op: P.OpId, key: string)
    requires Inv(s) && C.Quiet(before, s.configs, key)
    requires P.Commits(s.engine, op) && s.engine.ops[op].cause.Dispatch? && s.engine.ops[op].snap.eventType == key
    ensures op in s.loads && s.loads[op] in before
  {
    CommittingLoadGave(s, op);
    ActiveLoadIsEarly(before, s.configs, s.loads[op], key, s.engine.ops[op].cause.cfg);
  }

  /** The histories change with a commit or an insert only. */
  lemma QuietHistory(s: Joint, step: Step)
    requires Enabled(s, step) && !(step.OfEngine? && (step.p.Attempt? || step.p.InsertRow?))
    ensures Apply(s, step).engine.history == s.engine.history && Apply(s, step).decidedBy == s.decidedBy
  {
    match step
    case OfEngine(p) => P.TimeAdvances(s.engine, p);
    case DecideFound(op) => P.TimeAdvances(s.engine, P.Decide(op, s.configs.tasks[s.loads[op]].value));
    case _ =>
  }

  lemma AppendKeepsEarly(earlier: P.Histories, before: set<C.TaskId>, h: P.Histories,
                         origin: map<(EventId, int), C.TaskId>, key: string,
                         id: EventId, n: Entry, next: map<(EventId, int), C.TaskId>)
    requires OnlyEarly(earlier, before, h, origin, key) && id in h
    requires forall i, k :: (i, k) in origin && (i != id || k != |h[id]|) ==>
               (i, k) in next && next[(i, k)] == origin[(i, k)]
    requires n.cause.Dispatch? && n.row.eventType == key ==> (id, |h[id]|) in next && next[(id, |h[id]|)] in before
    ensures OnlyEarly(earlier, before, h[id := h[id] + [n]], next, key)
  {
    var g := h[id := h[id] + [n]];
    forall i, k | NewDispatch(earlier, g, i, k, key) ensures (i, k) in next && next[(i, k)] in before {
      if i != id || k < |h[id]| {
        assert NewDispatch(earlier, h, i, k, key);
      }
    }
  }

  lemma CommitKeepsEarly(earlier: P.Histories, before: set<C.TaskId>, s: Joint, op: P.OpId, stamp: Time, key: string)
    requires Inv(s) && C.Quiet(before, s.configs, key)
    requires OnlyEarly(earlier, before, s.engine.history, s.decidedBy, key) && P.Commits(s.engine, op)
    ensures OnlyEarly(earlier, before, P.ApplyAttempt(s.engine, op, stamp).history, Recorded(s, op), key)
  {
    var o := s.engine.ops[op];
    CommitAppends(s.engine, op, stamp);
    if o.cause.Dispatch? && o.snap.eventType == key {
      CommitterLoadedEarly(before, s, op, key);
    }
    AppendKeepsEarly(earlier, before, s.engine.history, s.decidedBy, key, o.snap.id,
                     P.NewEntry(o, stamp, s.engine.now), Recorded(s, op));
  }

  lemma NewByInsert(s: P.State, op: P.OpId, stamp: Time, id: EventId, k: int)
    requires P.Enabled(s, P.InsertRow(op, stamp)) && IsDispatch(P.ApplyInsert(s, op, stamp).history, id, k)
    ensures IsDispatch(s.history, id, k) && P.ApplyInsert(s, op, stamp).history[id] == s.history[id]
  {
  }

  lemma InsertKeepsEarly(earlier: P.Histories, before: set<C.TaskId>, s: Joint, op: P.OpId, stamp: Time, key: string)
    requires OnlyEarly(earlier, before, s.engine.history, s.decidedBy, key)
             && P.Enabled(s.engine, P.InsertRow(op, stamp))
    ensures OnlyEarly(earlier, before, P.ApplyInsert(s.engine, op, stamp).history, s.decidedBy, key)
  {
    var g := P.ApplyInsert(s.engine, op, stamp).history;
    forall id, k | NewDispatch(earlier, g, id, k, key)
      ensures (id, k) in s.decidedBy && s.decidedBy[(id, k)] in before
    {
      NewByInsert(s.engine, op, stamp, id, k);
      assert NewDispatch(earlier, s.engine.history, id, k, key);
    }
  }

  lemma StepKeepsEarly(earlier: P.Histories, before: set<C.TaskId>, s: Joint, step: Step, key: string)
    requires Inv(s) && C.Quiet(before, s.configs, key) && Enabled(s, step)
    requires OnlyEarly(earlier, before, s.engine.history, s.decidedBy, key)
    ensures var t := Apply(s, step); OnlyEarly(earlier, before, t.engine.history, t.decidedBy, key)
  {
    if step.OfEngine? && step.p.Attempt? {
      if P.Commits(s.engine, step.p.op) {
        CommitKeepsEarly(earlier, before, s, step.p.op, step.p.stamp, key);
      }
    } else if step.OfEngine? && step.p.InsertRow? {
      InsertKeepsEarly(earlier, before, s, step.p.op, step.p.stamp, key);
    } else {
      QuietHistory(s, step);
    }
  }

  lemma {:induction false} SuspendedRunKeepsEarly(earlier: P.Histories, before: set<C.TaskId>, s: Joint,
                                                  steps: seq<Step>, t: Joint, key: string)
    requires Inv(s) && C.Quiet(before, s.configs, key)
    requires OnlyEarly(earlier, before, s.engine.history, s.decidedBy, key) && SuspendedRun(s, steps, t, key)
    ensures OnlyEarly(earlier, before, t.engine.history, t.decidedBy, key)
    decreases |steps|
  {
    if steps == [] {
    } else {
      StepKeepsInv(s, steps[0]);
      StepKeepsQuiet(before, s, steps[0], key);
      StepKeepsEarly(earlier, before, s, steps[0], key);
      SuspendedRunKeepsEarly(earlier, before, Apply(s, steps[0]), steps[1..], t, key);
    }
  }

  lemma {:induction false} SuspendedRunIsRun(s: Joint, steps: seq<Step>, t: Joint, key: string)
    requires Inv(s) && C.SuspendedRow(s.configs, key) && SuspendedRun(s, steps, t, key)
    ensures Inv(t) && C.SuspendedRow(t.configs, key)
    decreases |steps|
  {
    if steps == [] {
    } else {
      StepKeepsInv(s, steps[0]);
      SuspendedRunIsRun(Apply(s, steps[0]), steps[1..], t, key);
    }
  }

  lemma EvictionIsQuiet(c: C.State, writer: C.TaskId, key: string)
    requires C.Enabled(c, C.Evict(writer)) && c.tasks[writer] == C.Evicting(key) && C.SuspendedRow(c, key)
    requires C.NoStaleReader(C.Apply(c, C.Evict(writer)), key)
    ensures C.Quiet(C.Apply(c, C.Evict(writer)).tasks.Keys, C.Apply(c, C.Evict(writer)), key)
  {
  }

  /**
   * Suspending takes effect. Somebody suspends an existing type, and no later write of the configuration table makes it
   * active. From the eviction that ends the call, with no load still holding an active row, every dispatch of the type
   * that commits was decided on a load begun before that eviction.
   */
  lemma SuspensionStopsDispatch(s: Joint, writer: C.TaskId, key: string, meanwhile: seq<Step>, m: Joint,
                                steps: seq<Step>, t: Joint)
    requires Reachable(s) && key in s.configs.rows && writer in s.configs.tasks
    requires s.configs.tasks[writer] == C.Writing(ConfigService.SetSuspended(key, true))
    requires SuspendedRun(Apply(s, OfConfigs(C.Persist(writer))), meanwhile, m, key)
    requires writer in m.configs.tasks && m.configs.tasks[writer] == C.Evicting(key)
    requires var u := Apply(m, OfConfigs(C.Evict(writer)));
             C.NoStaleReader(u.configs, key) && SuspendedRun(u, steps, t, key)
    ensures var u := Apply(m, OfConfigs(C.Evict(writer)));
            forall id, k :: NewDispatch(u.engine.history, t.engine.history, id, k, key) ==>
              (id, k) in t.decidedBy && t.decidedBy[(id, k)] in u.configs.tasks
  {
    ReachableInv(s);
    C.WritePersists(s.configs, writer, ConfigService.SetSuspended(key, true));
    StepKeepsInv(s, OfConfigs(C.Persist(writer)));
    SuspendedRunIsRun(Apply(s, OfConfigs(C.Persist(writer))), meanwhile, m, key);
    var u := Apply(m, OfConfigs(C.Evict(writer)));
    StepKeepsInv(m, OfConfigs(C.Evict(writer)));
    EvictionIsQuiet(m.configs, writer, key);
    SuspendedRunKeepsEarly(u.engine.history, u.configs.tasks.Keys, u, steps, t, key);
  }

  /** An operation that loads, or decided on, the configuration of this type. */
  predicate Serves(o: P.Op, key: string) {
    (o.Found? || (o.Committing? && o.cause.Dispatch?)) && o.snap.eventType == key
  }

  /** No operation that serves the type relies on one of these loads. */
  ghost predicate NoneRelies(before: set<C.TaskId>, s: Joint, key: string) {
    forall op :: op in s.loads && op in s.engine.ops && Serves(s.engine.ops[op], key) ==> s.loads[op] !in before
  }

  lemma EngineKeepsNoneRelies(before: set<C.TaskId>, s: Joint, p: P.Step, key: string)
    requires s.loads.Keys <= s.engine.ops.Keys && P.Enabled(s.engine, p) && NoneRelies(before, s, key)
    ensures NoneRelies(before, AfterEngine(s, p), key)
  {
    var t := AfterEngine(s, p);
    forall op | op in t.loads && op in t.engine.ops && Serves(t.engine.ops[op], key) ensures t.loads[op] !in before {
      if t.engine.ops[op] != s.engine.ops[op] {
        EngineStepOps(s.engine, p, op);
      }
    }
  }

  lemma StepKeepsNoneRelies(before: set<C.TaskId>, s: Joint, step: Step, key: string)
    requires s.loads.Keys <= s.engine.ops.Keys && before <= s.configs.tasks.Keys
    requires Enabled(s, step) && NoneRelies(before, s, key)
    ensures NoneRelies(before, Apply(s, step), key)
  {
    match step
    case OfEngine(p) => EngineKeepsNoneRelies(before, s, p, key);
    case DecideFound(op) => EngineKeepsNoneRelies(before, s, P.Decide(op, s.configs.tasks[s.loads[op]].value), key);
    case _ =>
  }

  lemma CommitterRelies(before: set<C.TaskId>, s: Joint, op: P.OpId, key: string)
    requires Inv(s) && C.Quiet(before, s.configs, key) && NoneRelies(before, s, key) && P.Commits(s.engine, op)
    ensures !(s.engine.ops[op].cause.Dispatch? && s.engine.ops[op].snap.eventType == key)
  {
    if s.engine.ops[op].cause.Dispatch? && s.engine.ops[op].snap.eventType == key {
      CommitterLoadedEarly(before, s, op, key);
    }
  }

  lemma CommitKeepsSilence(earlier: P.Histories, before: set<C.TaskId>, s: Joint, op: P.OpId, stamp: Time, key: string)
    requires Inv(s) && C.Quiet(before, s.configs, key) && NoneRelies(before, s, key) && P.Commits(s.engine, op)
    requires OnlyEarly(earlier, {}, s.engine.history, s.decidedBy, key)
    ensures OnlyEarly(earlier, {}, P.ApplyAttempt(s.engine, op, stamp).history, Recorded(s, op), key)
  {
    var o := s.engine.ops[op];
    CommitAppends(s.engine, op, stamp);
    CommitterRelies(before, s, op, key);
    AppendKeepsEarly(earlier, {}, s.engine.history, s.decidedBy, key, o.snap.id,
                     P.NewEntry(o, stamp, s.engine.now), Recorded(s, op));
  }

  /** Among the new dispatches none is of the type: the case of no load at all. */
  lemma StepKeepsSilence(earlier: P.Histories, before: set<C.TaskId>, s: Joint, step: Step, key: string)
    requires Inv(s) && C.Quiet(before, s.configs, key) && NoneRelies(before, s, key) && Enabled(s, step)
    requires OnlyEarly(earlier, {}, s.engine.history, s.decidedBy, key)
    ensures var t := Apply(s, step); OnlyEarly(earlier, {}, t.engine.history, t.decidedBy, key)
  {
    if step.OfEngine? && step.p.Attempt? {
      if P.Commits(s.engine, step.p.op) {
        CommitKeepsSilence(earlier, before, s, step.p.op, step.p.stamp, key);
      }
    } else if step.OfEngine? && step.p.InsertRow? {
      InsertKeepsEarly(earlier, {}, s, step.p.op, step.p.stamp, key);
    } else {
      QuietHistory(s, step);
    }
  }

  lemma {:induction false} SuspendedRunKeepsSilence(earlier: P.Histories, before: set<C.TaskId>, s: Joint,
                                                    steps: seq<Step>, t: Joint, key: string)
    requires Inv(s) && C.Quiet(before, s.configs, key) && NoneRelies(before, s, key)
    requires OnlyEarly(earlier, {}, s.engine.history, s.decidedBy, key) && SuspendedRun(s, steps, t, key)
    ensures OnlyEarly(earlier, {}, t.engine.history, t.decidedBy, key)
    decreases |steps|
  {
    if steps == [] {
    } else {
      StepKeepsInv(s, steps[0]);
      StepKeepsQuiet(before, s, steps[0], key);
      StepKeepsNoneRelies(before, s, steps[0], key);
      StepKeepsSilence(earlier, before, s, steps[0], key);
      SuspendedRunKeepsSilence(earlier, before, Apply(s, steps[0]), steps[1..], t, key);
    }
  }

  /** If moreover no job is between its load and its update for that type, no dispatch of the type commits at all. */
  lemma SuspensionSilencesIdleType(m: Joint, writer: C.TaskId, key: string, steps: seq<Step>, t: Joint)
    requires Reachable(m) && C.SuspendedRow(m.configs, key)
    requires writer in m.configs.tasks && m.configs.tasks[writer] == C.Evicting(key)
    requires var u := Apply(m, OfConfigs(C.Evict(writer)));
             C.NoStaleReader(u.configs, key) && SuspendedRun(u, steps, t, key)
             && forall op :: op in u.loads && op in u.engine.ops ==> !Serves(u.engine.ops[op], key)
    ensures var u := Apply(m, OfConfigs(C.Evict(writer)));
            forall id, k :: !NewDispatch(u.engine.history, t.engine.history, id, k, key)
  {
    ReachableInv(m);
    var u := Apply(m, OfConfigs(C.Evict(writer)));
    StepKeepsInv(m, OfConfigs(C.Evict(writer)));
    EvictionIsQuiet(m.configs, writer, key);
    SuspendedRunKeepsSilence(u.engine.history, u.configs.tasks.Keys, u, steps, t, key);
  }

  // ---------------------------------------------------------------------------------------------
  // What a stale reader does
  // ---------------------------------------------------------------------------------------------

  lemma SuspendedCons(s: Joint, step: Step, steps: seq<Step>, t: Joint, key: string)
    requires Enabled(s, step) && C.SuspendedRow(Apply(s, step).configs, key)
             && SuspendedRun(Apply(s, step), steps, t, key)
    ensures SuspendedRun(s, [step] + steps, t, key)
  {
    assert ([step] + steps)[1..] == steps;
  }

  /** A load under way that read an active, usable row it has yet to store. */
  predicate StaleReader(c: C.State, key: string, reader: C.TaskId) {
    && reader in c.tasks && c.tasks[reader].Fetched? && c.tasks[reader].key == key
    && !c.tasks[reader].value.isSuspended && ValidConfig(c.tasks[reader].value)
  }

  /** An event of the type that a job can find now. */
  predicate Waiting(s: P.State, key: string, id: EventId) {
    && id in s.rows && s.rows[id].eventType == key
    && s.rows[id].status == AwaitingProcessing && s.rows[id].createdAt <= s.now
  }

  lemma LiveStays(loads: map<P.OpId, C.TaskId>, ops: map<P.OpId, P.Op>)
    requires loads.Keys <= ops.Keys
    ensures Live(loads, ops) == loads
  {
  }

  lemma FindIsApplied(s: Joint, op: P.OpId, id: EventId)
    requires op !in s.engine.ops && s.loads.Keys <= s.engine.ops.Keys
    requires P.Enabled(s.engine, P.FindEvent(op, id, PendingFinder))
    ensures var ops := s.engine.ops[op := P.Found(PendingFinder, s.engine.rows[id])];
            AfterEngine(s, P.FindEvent(op, id, PendingFinder)) == s.(engine := s.engine.(ops := ops))
  {
    LiveStays(s.loads, s.engine.ops[op := P.Found(PendingFinder, s.engine.rows[id])]);
  }

  /** The cache serves the unexpired entry to a load that begins now. */
  lemma EntryIsServed(c: C.State, load: C.TaskId, key: string) returns (d: C.State)
    requires load !in c.tasks && key in c.entries && c.now <= c.entries[key].expiresAt && C.SuspendedRow(c, key)
    ensures C.Enabled(c, C.Begin(load, key)) && C.Enabled(C.Apply(c, C.Begin(load, key)), C.Peek(load))
    ensures var p := C.Apply(C.Apply(c, C.Begin(load, key)), C.Peek(load));
            C.Enabled(p, C.Check(load)) && d == C.Apply(p, C.Check(load)) &&
            C.SuspendedRow(C.Apply(c, C.Begin(load, key)), key) && C.SuspendedRow(p, key) && C.SuspendedRow(d, key)
    ensures Gave(d.tasks, load, key, c.entries[key].value.value)
  {
    d := C.Apply(C.Apply(C.Apply(c, C.Begin(load, key)), C.Peek(load)), C.Check(load));
  }

  lemma LoadIsServed(s: Joint, key: string, op: P.OpId, load: C.TaskId) returns (steps: seq<Step>, t: Joint)
    requires op in s.engine.ops && WantsConfig(s.engine.ops[op]) && s.engine.ops[op].snap.eventType == key
    requires op !in s.loads && load !in s.configs.tasks && C.SuspendedRow(s.configs, key)
    requires key in s.configs.entries && s.configs.now <= s.configs.entries[key].expiresAt
    ensures SuspendedRun(s, steps, t, key)
    ensures t.engine == s.engine && t.decidedBy == s.decidedBy && t.loads == s.loads[op := load]
    ensures C.SuspendedRow(t.configs, key) && Gave(t.configs.tasks, load, key, s.configs.entries[key].value.value)
  {
    var x1, x2, x3 := BeginLoad(op, load), OfConfigs(C.Peek(load)), OfConfigs(C.Check(load));
    var d := EntryIsServed(s.configs, load, key);
    var s1 := Apply(s, x1);
    var s2 := Apply(s1, x2);
    t := Apply(s2, x3);
    SuspendedCons(s2, x3, [], t, key);
    SuspendedCons(s1, x2, [x3], t, key);
    SuspendedCons(s, x1, [x2] + [x3], t, key);
    steps := [x1] + ([x2] + [x3]);
  }

  /** The reader stores the active row, a job finds the event, and its load is served from the cache. */
  lemma StaleReaderServes(u: Joint, key: string, reader: C.TaskId, id: EventId, op: P.OpId, load: C.TaskId)
      returns (steps: seq<Step>, t: Joint)
    requires u.loads.Keys <= u.engine.ops.Keys && StaleReader(u.configs, key, reader) && Waiting(u.engine, key, id)
    requires op !in u.engine.ops && load !in u.configs.tasks && C.SuspendedRow(u.configs, key)
    ensures SuspendedRun(u, steps, t, key) && C.SuspendedRow(t.configs, key)
    ensures t.engine == u.engine.(ops := u.engine.ops[op := P.Found(PendingFinder, u.engine.rows[id])])
    ensures op in t.loads && t.loads[op] == load && t.decidedBy == u.decidedBy
    ensures Gave(t.configs.tasks, load, key, u.configs.tasks[reader].value)
  {
    var x1, x2 := OfConfigs(C.Store(reader)), OfEngine(P.FindEvent(op, id, PendingFinder));
    var s1 := Apply(u, x1);
    FindIsApplied(s1, op, id);
    var s2 := Apply(s1, x2);
    var rest;
    rest, t := LoadIsServed(s2, key, op, load);
    SuspendedCons(s1, x2, rest, t, key);
    SuspendedCons(u, x1, [x2] + rest, t, key);
    steps := [x1] + ([x2] + rest);
  }

  lemma DecideIsApplied(s: Joint, op: P.OpId, e: Event, cfg: Config)
    requires op in s.engine.ops && s.engine.ops[op] == P.Found(PendingFinder, e) && s.loads.Keys <= s.engine.ops.Keys
    requires !cfg.isSuspended && ValidConfig(cfg)
    ensures AfterEngine(s, P.Decide(op, cfg)) ==
            s.(engine := s.engine.(ops := s.engine.ops[op := P.Committing(Dispatch(PendingFinder, cfg), e)]))
  {
    LiveStays(s.loads, s.engine.ops[op := P.Committing(Dispatch(PendingFinder, cfg), e)]);
  }

  lemma CurrentDispatchCommits(s: P.State, op: P.OpId, id: EventId, cfg: Config)
    requires P.Inv(s) && id in s.rows && s.rows[id].status == AwaitingProcessing && !cfg.isSuspended
    requires op in s.ops && s.ops[op] == P.Committing(Dispatch(PendingFinder, cfg), s.rows[id])
    ensures P.Commits(s, op) && s.rows[id].id == id
  {
    P.LoadOk(s, id);
    P.CommandTargetsSnapshot(s.rows[id], Dispatch(PendingFinder, cfg));
  }

  lemma AppendIsNew(h: P.Histories, id: EventId, n: Entry, key: string)
    requires id in h && n.cause.Dispatch? && n.row.eventType == key
    ensures NewDispatch(h, h[id := h[id] + [n]], id, |h[id]|, key)
  {
  }

  lemma CommitRuns(s: Joint, key: string, op: P.OpId) returns (t: Joint)
    requires C.SuspendedRow(s.configs, key) && P.Commits(s.engine, op)
    ensures SuspendedRun(s, [OfEngine(P.Attempt(op, 0))], t, key)
    ensures t.engine.history == P.ApplyAttempt(s.engine, op, 0).history && t.decidedBy == Recorded(s, op)
  {
    t := Apply(s, OfEngine(P.Attempt(op, 0)));
    SuspendedCons(s, OfEngine(P.Attempt(op, 0)), [], t, key);
  }

  /** The update of a decided job commits, on the record of its load. */
  lemma DecidedJobDispatches(s: Joint, key: string, id: EventId, op: P.OpId, cfg: Config) returns (t: Joint)
    requires P.Inv(s.engine) && C.SuspendedRow(s.configs, key) && Waiting(s.engine, key, id)
    requires op in s.loads && op in s.engine.ops && !cfg.isSuspended
    requires s.engine.ops[op] == P.Committing(Dispatch(PendingFinder, cfg), s.engine.rows[id])
    ensures SuspendedRun(s, [OfEngine(P.Attempt(op, 0))], t, key) && id in s.engine.history
    ensures NewDispatch(s.engine.history, t.engine.history, id, |s.engine.history[id]|, key)
    ensures (id, |s.engine.history[id]|) in t.decidedBy && t.decidedBy[(id, |s.engine.history[id]|)] == s.loads[op]
  {
    CurrentDispatchCommits(s.engine, op, id, cfg);
    CommitAppends(s.engine, op, 0);
    t := CommitRuns(s, key, op);
    AppendIsNew(s.engine.history, id, P.NewEntry(s.engine.ops[op], 0, s.engine.now), key);
  }

  lemma DecisionRuns(s: Joint, key: string, op: P.OpId, e: Event, cfg: Config) returns (m: Joint)
    requires C.SuspendedRow(s.configs, key) && s.loads.Keys <= s.engine.ops.Keys && e.eventType == key
    requires op in s.engine.ops && s.engine.ops[op] == P.Found(PendingFinder, e) && !cfg.isSuspended && ValidConfig(cfg)
    requires op in s.loads && Gave(s.configs.tasks, s.loads[op], key, cfg)
    ensures Enabled(s, DecideFound(op)) && m == Apply(s, DecideFound(op))
    ensures m == s.(engine := s.engine.(ops := s.engine.ops[op := P.Committing(Dispatch(PendingFinder, cfg), e)]))
  {
    DecideIsApplied(s, op, e, cfg);
    m := Apply(s, DecideFound(op));
  }

  /** The job decides on what its load returned, and its update commits. */
  lemma ServedJobDispatches(s: Joint, key: string, id: EventId, op: P.OpId, cfg: Config)
      returns (steps: seq<Step>, t: Joint)
    requires Inv(s) && C.SuspendedRow(s.configs, key) && Waiting(s.engine, key, id)
    requires op in s.engine.ops && s.engine.ops[op] == P.Found(PendingFinder, s.engine.rows[id])
    requires op in s.loads && Gave(s.configs.tasks, s.loads[op], key, cfg) && !cfg.isSuspended && ValidConfig(cfg)
    ensures SuspendedRun(s, steps, t, key) && id in s.engine.history
    ensures NewDispatch(s.engine.history, t.engine.history, id, |s.engine.history[id]|, key)
    ensures (id, |s.engine.history[id]|) in t.decidedBy && t.decidedBy[(id, |s.engine.history[id]|)] == s.loads[op]
  {
    var m := DecisionRuns(s, key, op, s.engine.rows[id], cfg);
    StepKeepsInv(s, DecideFound(op));
    t := DecidedJobDispatches(m, key, id, op, cfg);
    SuspendedCons(s, DecideFound(op), [OfEngine(P.Attempt(op, 0))], t, key);
    steps := [DecideFound(op)] + [OfEngine(P.Attempt(op, 0))];
  }

  lemma {:induction false} SuspendedAppend(s: Joint, xs: seq<Step>, m: Joint, ys: seq<Step>, t: Joint, key: string)
    requires SuspendedRun(s, xs, m, key) && SuspendedRun(m, ys, t, key)
    ensures SuspendedRun(s, xs + ys, t, key)
    decreases |xs|
  {
    if xs == [] {
      assert xs + ys == ys;
    } else {
      assert (xs + ys)[1..] == xs[1..] + ys;
      SuspendedAppend(Apply(s, xs[0]), xs[1..], m, ys, t, key);
    }
  }

  /** In this run, with the row suspended throughout, a dispatch of the type commits on a load begun during the run. */
  ghost predicate LateDispatch(u: Joint, steps: seq<Step>, t: Joint, key: string, id: EventId, k: int) {
    && SuspendedRun(u, steps, t, key) && NewDispatch(u.engine.history, t.engine.history, id, k, key)
    && !((id, k) in t.decidedBy && t.decidedBy[(id, k)] in u.configs.tasks)
  }

  lemma StaleReaderDispatches(u: Joint, key: string, reader: C.TaskId, id: EventId)
    requires Inv(u) && C.SuspendedRow(u.configs, key) && StaleReader(u.configs, key, reader)
             && Waiting(u.engine, key, id)
    ensures exists steps, t, k :: LateDispatch(u, steps, t, key, id, k)
  {
    var op := FreshNat(u.engine.ops.Keys);
    var load := FreshNat(u.configs.tasks.Keys);
    var xs, m := StaleReaderServes(u, key, reader, id, op, load);
    SuspendedRunIsRun(u, xs, m, key);
    var ys, t := ServedJobDispatches(m, key, id, op, u.configs.tasks[reader].value);
    SuspendedAppend(u, xs, m, ys, t, key);
    assert LateDispatch(u, xs + ys, t, key, id, |m.engine.history[id]|);
  }

  lemma NoLateDispatch(u: Joint, key: string, steps: seq<Step>, t: Joint, id: EventId, k: int)
    requires Inv(u) && C.Quiet(u.configs.tasks.Keys, u.configs, key)
    ensures !LateDispatch(u, steps, t, key, id, k)
  {
    if SuspendedRun(u, steps, t, key) {
      SuspendedRunKeepsEarly(u.engine.history, u.configs.tasks.Keys, u, steps, t, key);
    }
  }

  lemma SomeStaleReader(c: C.State, key: string) returns (reader: C.TaskId)
    requires !C.NoStaleReader(c, key) && forall x :: x in c.tasks && c.tasks[x].Fetched? ==>
             ValidConfig(c.tasks[x].value)
    ensures StaleReader(c, key, reader)
  {
    reader :| reader in c.tasks && c.tasks[reader].Fetched? && c.tasks[reader].key == key
              && !c.tasks[reader].value.isSuspended;
  }

  /**
   * The exact condition, for a suspended type with an event waiting: after the eviction that ends the suspension,
   * some job whose load begins later can still dispatch an event of the type exactly if a load under way holds an
   * active row.
   */
  lemma LateDispatchIffStaleReader(m: Joint, writer: C.TaskId, key: string, waiting: EventId)
    requires Reachable(m) && C.SuspendedRow(m.configs, key)
    requires writer in m.configs.tasks && m.configs.tasks[writer] == C.Evicting(key)
    requires var u := Apply(m, OfConfigs(C.Evict(writer)));
             Waiting(u.engine, key, waiting)
             && forall x :: x in u.configs.tasks && u.configs.tasks[x].Fetched? ==>
                ValidConfig(u.configs.tasks[x].value)
    ensures var u := Apply(m, OfConfigs(C.Evict(writer)));
            (exists steps, t, id, k :: LateDispatch(u, steps, t, key, id, k)) <==> !C.NoStaleReader(u.configs, key)
  {
    ReachableInv(m);
    var u := Apply(m, OfConfigs(C.Evict(writer)));
    StepKeepsInv(m, OfConfigs(C.Evict(writer)));
    if C.NoStaleReader(u.configs, key) {
      EvictionIsQuiet(m.configs, writer, key);
      forall steps, t, id, k ensures !LateDispatch(u, steps, t, key, id, k) {
        NoLateDispatch(u, key, steps, t, id, k);
      }
    } else {
      var reader := SomeStaleReader(u.configs, key);
      StaleReaderDispatches(u, key, reader, waiting);
    }
  }
}
