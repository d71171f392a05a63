/**
 * Loaders and writers of configurations interleaved on one engine instance: every lock section, query and clock
 * reading is a step of its own. Other instances write the repository without touching this cache.
 */
module ConfigProtocol {
  import opened EventModel
  import opened TtlCache
  import opened ConfigService

  type TaskId = nat

  /** A cached value with, as auxiliary data, the instants it was read from the repository and stored. */
  datatype Stored = Stored(value: Config, readAt: Time, setAt: Time)

  datatype Task =
    | Starting(key: string)
    | Peeked(key: string, entry: CacheEntry<Stored>)
    | Stale(key: string)
    | Missing(key: string)
    | Fetched(key: string, value: Config, readAt: Time)
    | Returned(key: string, value: Config, readAt: Time, setAt: Time, at: Time)
    | Writing(write: ConfigWrite)
    | Evicting(key: string)
    | Finished

  /** The repository's rows from an instant on. */
  datatype Era = Era(from: Time, rows: Configs)

  datatype State = State(
    rows: Configs,
    entries: Entries<Stored>,
    now: Time,
    tasks: map<TaskId, Task>,
    eras: seq<Era>)

  datatype Step =
    | Tick(to: Time)
    | Begin(task: TaskId, key: string)
    | Peek(task: TaskId)
    | Check(task: TaskId)
    | Clean(task: TaskId)
    | Fetch(task: TaskId)
    | Store(task: TaskId)
    | BeginWrite(task: TaskId, write: ConfigWrite)
    | Persist(task: TaskId)
    | Evict(task: TaskId)
    | ForeignWrite(write: ConfigWrite)

  function Init(rows: Configs, now: Time): State {
    State(rows, map[], now, map[], [Era(now, rows)])
  }

  predicate Enabled(s: State, step: Step) {
    match step
    case Tick(to) => s.now <= to
    case Begin(t, _) => t !in s.tasks
    case Peek(t) => t in s.tasks && s.tasks[t].Starting?
    case Check(t) => t in s.tasks && s.tasks[t].Peeked?
    case Clean(t) => t in s.tasks && s.tasks[t].Stale?
    case Fetch(t) => t in s.tasks && s.tasks[t].Missing?
    case Store(t) => t in s.tasks && s.tasks[t].Fetched?
    case BeginWrite(t, _) => t !in s.tasks
    case Persist(t) => t in s.tasks && s.tasks[t].Writing?
    case Evict(t) => t in s.tasks && s.tasks[t].Evicting?
    case ForeignWrite(_) => true
  }

  function Written(s: State, w: ConfigWrite): State {
    var rows := ExecWrite(s.rows, w);
    s.(rows := rows, eras := s.eras + [Era(s.now, rows)])
  }

  function Apply(s: State, step: Step): State
    requires Enabled(s, step)
  {
    match step
    case Tick(to) => s.(now := to)
    case Begin(t, key) => s.(tasks := s.tasks[t := Starting(key)])
    case Peek(t) =>
      var key := s.tasks[t].key;
      s.(tasks := s.tasks[t := if key in s.entries then Peeked(key, s.entries[key]) else Missing(key)])
    case Check(t) =>
      var o := s.tasks[t];
      s.(tasks := s.tasks[t := if Unexpired(o.entry, s.now)
                               then Returned(o.key, o.entry.value.value, o.entry.value.readAt, o.entry.value.setAt,
                                   s.now)
                               else Stale(o.key)])
    case Clean(t) =>
      var key := s.tasks[t].key;
      s.(entries := ExecOp(s.entries, CleanOp(key, s.now), CONFIG_CACHE_TTL), tasks := s.tasks[t := Missing(key)])
    case Fetch(t) =>
      var key := s.tasks[t].key;
      s.(tasks := s.tasks[t := if key in s.rows then Fetched(key, s.rows[key], s.now) else Finished])
    case Store(t) =>
      var o := s.tasks[t];
      s.(entries := ExecOp(s.entries, SetOp(o.key, Stored(o.value, o.readAt, s.now), s.now), CONFIG_CACHE_TTL),
         tasks := s.tasks[t := Returned(o.key, o.value, o.readAt, s.now, s.now)])
    case BeginWrite(t, w) => s.(tasks := s.tasks[t := Writing(w)])
    case Persist(t) =>
      var w := s.tasks[t].write;
      Written(s, w).(tasks := s.tasks[t := Evicting(WrittenType(w))])
    case Evict(t) =>
      s.(entries := ExecOp(s.entries, DeleteOp(s.tasks[t].key), CONFIG_CACHE_TTL), tasks := s.tasks[t := Finished])
    case ForeignWrite(w) => Written(s, w)
  }

  ghost predicate Run(s: State, steps: seq<Step>, t: State)
    decreases |steps|
  {
    if steps == [] then s == t
    else Enabled(s, steps[0]) && Run(Apply(s, steps[0]), steps[1..], t)
  }

  lemma RunCons(s: State, step: Step, steps: seq<Step>, t: State)
    requires Enabled(s, step) && Run(Apply(s, step), steps, t)
    ensures Run(s, [step] + steps, t)
  {
    assert ([step] + steps)[1..] == steps;
  }

  // ---------------------------------------------------------------------------------------------
  // Bounded staleness
  // ---------------------------------------------------------------------------------------------

  /** The instant falls into this era, whose row for the key was this configuration. */
  predicate InEra(eras: seq<Era>, i: int, key: string, cfg: Config, at: Time) {
    && 0 <= i < |eras| && eras[i].from <= at && (i + 1 < |eras| ==> at <= eras[i + 1].from)
    && key in eras[i].rows && eras[i].rows[key] == cfg
  }

  /** At this instant the repository's row for the key was this configuration. */
  ghost predicate WasStored(eras: seq<Era>, key: string, cfg: Config, at: Time) {
    exists i :: InEra(eras, i, key, cfg, at)
  }

  ghost predicate EntryOk(s: State, key: string, e: CacheEntry<Stored>) {
    && WasStored(s.eras, key, e.value.value, e.value.readAt)
    && e.value.readAt <= e.value.setAt <= s.now && e.expiresAt == e.value.setAt + CONFIG_CACHE_TTL
  }

  ghost predicate TaskOk(s: State, o: Task) {
    match o
    case Peeked(key, e) => EntryOk(s, key, e)
    case Fetched(key, cfg, readAt) => WasStored(s.eras, key, cfg, readAt) && readAt <= s.now
    case Returned(key, cfg, readAt, setAt, at) =>
      WasStored(s.eras, key, cfg, readAt) && readAt <= setAt <= at <= setAt + CONFIG_CACHE_TTL && at <= s.now
    case _ => true
  }

  ghost predicate Inv(s: State) {
    && |s.eras| > 0 && s.eras[|s.eras| - 1].rows == s.rows && s.eras[|s.eras| - 1].from <= s.now
    && (forall key :: key in s.entries ==> EntryOk(s, key, s.entries[key]))
    && (forall t :: t in s.tasks ==> TaskOk(s, s.tasks[t]))
  }

  lemma StoredStays(s: State, t: State, key: string, cfg: Config, at: Time)
    requires WasStored(s.eras, key, cfg, at) && at <= s.now
             && (t.eras == s.eras || (|t.eras| == |s.eras| + 1 && s.eras <= t.eras && t.eras[|s.eras|].from == s.now))
    ensures WasStored(t.eras, key, cfg, at)
  {
    var i :| InEra(s.eras, i, key, cfg, at);
    assert InEra(t.eras, i, key, cfg, at);
  }

  lemma TaskOkStays(s: State, t: State, o: Task)
    requires TaskOk(s, o) && s.now <= t.now
    requires t.eras == s.eras || (|t.eras| == |s.eras| + 1 && s.eras <= t.eras && t.eras[|s.eras|].from == s.now)
    ensures TaskOk(t, o)
  {
    match o
    case Peeked(key, e) => StoredStays(s, t, key, e.value.value, e.value.readAt);
    case Fetched(key, cfg, readAt) => StoredStays(s, t, key, cfg, readAt);
    case Returned(key, cfg, readAt, _, _) => StoredStays(s, t, key, cfg, readAt);
    case _ =>
  }

  lemma EntryOkStays(s: State, t: State, key: string, e: CacheEntry<Stored>)
    requires EntryOk(s, key, e) && s.now <= t.now
    requires t.eras == s.eras || (|t.eras| == |s.eras| + 1 && s.eras <= t.eras && t.eras[|s.eras|].from == s.now)
    ensures EntryOk(t, key, e)
  {
    StoredStays(s, t, key, e.value.value, e.value.readAt);
  }

  lemma StepKeepsInv(s: State, step: Step)
    requires Inv(s) && Enabled(s, step)
    ensures Inv(Apply(s, step))
  {
    var t := Apply(s, step);
    if step.Fetch? && s.tasks[step.task].key in s.rows {
      var key := s.tasks[step.task].key;
      assert InEra(s.eras, |s.eras| - 1, key, s.rows[key], s.now);
    }
    forall key | key in t.entries ensures EntryOk(t, key, t.entries[key]) {
      if key in s.entries && t.entries[key] == s.entries[key] {
        EntryOkStays(s, t, key, s.entries[key]);
      } else {
        assert TaskOk(s, s.tasks[step.task]);
      }
    }
    forall x | x in t.tasks ensures TaskOk(t, t.tasks[x]) {
      if x in s.tasks && t.tasks[x] == s.tasks[x] {
        TaskOkStays(s, t, s.tasks[x]);
      } else if x in s.tasks {
        assert TaskOk(s, s.tasks[x]);
        if step.Peek? && s.tasks[x].key in s.entries {
          assert EntryOk(s, s.tasks[x].key, s.entries[s.tasks[x].key]);
        }
      }
    }
  }

  lemma {:induction false} RunKeepsInv(s: State, steps: seq<Step>, t: State)
    requires Inv(s) && Run(s, steps, t)
    ensures Inv(t)
    decreases |steps|
  {
    if steps == [] {
    } else {
      StepKeepsInv(s, steps[0]);
      RunKeepsInv(Apply(s, steps[0]), steps[1..], t);
    }
  }

  /**
   * Every configuration a load returns was the repository's row at an instant no longer ago than the cache lifetime
   * plus the time the load that cached it took from reading to storing.
   */
  lemma StalenessIsBounded(rows: Configs, now: Time, steps: seq<Step>, s: State, load: TaskId)
    requires Run(Init(rows, now), steps, s) && load in s.tasks && s.tasks[load].Returned?
    ensures var r := s.tasks[load];
            WasStored(s.eras, r.key, r.value, r.readAt) && r.readAt <= r.at &&
            r.at - r.readAt <= 60 * SECOND + (r.setAt - r.readAt)
  {
    RunKeepsInv(Init(rows, now), steps, s);
    assert TaskOk(s, s.tasks[load]);
  }

  // ---------------------------------------------------------------------------------------------
  // What later loads see of a write
  // ---------------------------------------------------------------------------------------------

  /** The type has a row, and its configuration is as wanted. */
  predicate RowIs(s: State, key: string, good: Config -> bool) {
    key in s.rows && good(s.rows[key])
  }

  /** A run during which the type's row stays as wanted: nobody writes it otherwise. */
  ghost predicate KeptRun(s: State, steps: seq<Step>, t: State, key: string, good: Config -> bool)
    decreases |steps|
  {
    if steps == [] then s == t
    else
      && Enabled(s, steps[0]) && RowIs(Apply(s, steps[0]), key, good)
      && KeptRun(Apply(s, steps[0]), steps[1..], t, key, good)
  }

  /** No load under way has read another configuration of this type that it has yet to store. */
  ghost predicate NoOtherReader(s: State, key: string, good: Config -> bool) {
    forall t :: t in s.tasks && s.tasks[t].Fetched? && s.tasks[t].key == key ==> good(s.tasks[t].value)
  }

  /** The tasks of this state that are loads of the type begun after the reference state. */
  ghost predicate LateLoad(before: set<TaskId>, s: State, t: TaskId, key: string) {
    t in s.tasks && t !in before && (s.tasks[t].Peeked? || s.tasks[t].Returned?) && s.tasks[t].key == key
  }

  ghost predicate LateLoadsAre(before: set<TaskId>, s: State, key: string, good: Config -> bool) {
    && (forall t :: LateLoad(before, s, t, key) && s.tasks[t].Peeked? ==> good(s.tasks[t].entry.value.value))
    && (forall t :: LateLoad(before, s, t, key) && s.tasks[t].Returned? ==> good(s.tasks[t].value))
  }

  ghost predicate Settled(before: set<TaskId>, s: State, key: string, good: Config -> bool) {
    && RowIs(s, key, good)
    && NoOtherReader(s, key, good)
    && (key in s.entries ==> good(s.entries[key].value.value))
    && before <= s.tasks.Keys
    && LateLoadsAre(before, s, key, good)
  }

  lemma StepKeepsSettled(before: set<TaskId>, s: State, step: Step, key: string, good: Config -> bool)
    requires Settled(before, s, key, good) && Enabled(s, step) && RowIs(Apply(s, step), key, good)
    ensures Settled(before, Apply(s, step), key, good)
  {
    var t := Apply(s, step);
    forall x | LateLoad(before, t, x, key)
      ensures (t.tasks[x].Peeked? ==> good(t.tasks[x].entry.value.value))
              && (t.tasks[x].Returned? ==> good(t.tasks[x].value))
    {
      if x in s.tasks && t.tasks[x] == s.tasks[x] {
        assert LateLoad(before, s, x, key);
      } else if step.Check? {
        assert LateLoad(before, s, x, key);
      }
    }
  }

  lemma {:induction false} RunKeepsSettled(before: set<TaskId>, s: State, steps: seq<Step>, t: State, key: string,
                                           good: Config -> bool)
    requires Settled(before, s, key, good) && KeptRun(s, steps, t, key, good)
    ensures Settled(before, t, key, good)
    decreases |steps|
  {
    if steps == [] {
    } else {
      StepKeepsSettled(before, s, steps[0], key, good);
      RunKeepsSettled(before, Apply(s, steps[0]), steps[1..], t, key, good);
    }
  }

  /** After this state, while the row stays as wanted, every load begun later returns a wanted configuration. */
  ghost predicate LaterLoadsSee(s: State, key: string, good: Config -> bool) {
    forall steps, t, load :: KeptRun(s, steps, t, key, good) && load !in s.tasks && load in t.tasks
                             && t.tasks[load].Returned? && t.tasks[load].key == key
                             ==> good(t.tasks[load].value)
  }

  lemma SettledIsSeen(s: State, key: string, good: Config -> bool, steps: seq<Step>, t: State, load: TaskId)
    requires Settled(s.tasks.Keys, s, key, good) && KeptRun(s, steps, t, key, good)
    requires load !in s.tasks && load in t.tasks && t.tasks[load].Returned? && t.tasks[load].key == key
    ensures good(t.tasks[load].value)
  {
    RunKeepsSettled(s.tasks.Keys, s, steps, t, key, good);
    assert LateLoad(s.tasks.Keys, t, load, key);
  }

  lemma KeptCons(s: State, step: Step, steps: seq<Step>, t: State, key: string, good: Config -> bool)
    requires Enabled(s, step) && RowIs(Apply(s, step), key, good) && KeptRun(Apply(s, step), steps, t, key, good)
    ensures KeptRun(s, [step] + steps, t, key, good)
  {
    assert ([step] + steps)[1..] == steps;
  }

  /** A reader that still holds another configuration stores it, and the next load is served from the cache. */
  lemma OtherReaderIsServed(s: State, key: string, good: Config -> bool, reader: TaskId)
      returns (steps: seq<Step>, t: State, load: TaskId)
    requires RowIs(s, key, good) && reader in s.tasks && s.tasks[reader].Fetched?
    requires s.tasks[reader].key == key && !good(s.tasks[reader].value)
    ensures KeptRun(s, steps, t, key, good) && load !in s.tasks && load in t.tasks
    ensures t.tasks[load].Returned? && t.tasks[load].key == key && t.tasks[load].value == s.tasks[reader].value
  {
    load := FreshNat(s.tasks.Keys);
    var s1 := Apply(s, Store(reader));
    var s2 := Apply(s1, Begin(load, key));
    var s3 := Apply(s2, Peek(load));
    t := Apply(s3, Check(load));
    KeptCons(s3, Check(load), [], t, key, good);
    KeptCons(s2, Peek(load), [Check(load)], t, key, good);
    KeptCons(s1, Begin(load, key), [Peek(load)] + [Check(load)], t, key, good);
    KeptCons(s, Store(reader), [Begin(load, key)] + ([Peek(load)] + [Check(load)]), t, key, good);
    steps := [Store(reader)] + ([Begin(load, key)] + ([Peek(load)] + [Check(load)]));
  }

  /**
   * The exact condition for a write to take effect: once the eviction that ends it has run, and while the row stays as
   * wanted, every later load sees it exactly when no load under way still holds a configuration that is not.
   */
  lemma LaterLoadsSeeIff(s: State, writer: TaskId, key: string, good: Config -> bool)
    requires Enabled(s, Evict(writer)) && s.tasks[writer] == Evicting(key) && RowIs(s, key, good)
    ensures var u := Apply(s, Evict(writer)); LaterLoadsSee(u, key, good) <==> NoOtherReader(u, key, good)
  {
    var u := Apply(s, Evict(writer));
    if NoOtherReader(u, key, good) {
      assert Settled(u.tasks.Keys, u, key, good);
      forall steps, t, load | KeptRun(u, steps, t, key, good) && load !in u.tasks && load in t.tasks
        && t.tasks[load].Returned? && t.tasks[load].key == key
        ensures good(t.tasks[load].value)
      {
        SettledIsSeen(u, key, good, steps, t, load);
      }
    } else {
      var reader :| reader in u.tasks && u.tasks[reader].Fetched? && u.tasks[reader].key == key
          && !good(u.tasks[reader].value);
      var steps, t, load := OtherReaderIsServed(u, key, good, reader);
    }
  }

  // ---------------------------------------------------------------------------------------------
  // Suspending, unsuspending, updating
  // ---------------------------------------------------------------------------------------------

  predicate IsSuspended(cfg: Config) {
    cfg.isSuspended
  }

  /** What each write leaves in the repository: the flag given, or the whole configuration; other types stay. */
  lemma WritePersists(s: State, writer: TaskId, w: ConfigWrite)
    requires Enabled(s, Persist(writer)) && s.tasks[writer] == Writing(w)
    ensures match w
            case SetSuspended(key, flag) =>
              var t := Apply(s, Persist(writer));
              t.tasks[writer] == Evicting(key) &&
              t.rows == if key in s.rows then s.rows[key := s.rows[key].(isSuspended := flag)] else s.rows
            case SaveConfig(cfg) =>
              var t := Apply(s, Persist(writer));
              t.tasks[writer] == Evicting(cfg.eventType) && t.rows == s.rows[cfg.eventType := cfg]
  {
  }

  lemma {:induction false} KeptRunKeeps(s: State, steps: seq<Step>, t: State, key: string, good: Config -> bool)
    requires RowIs(s, key, good) && KeptRun(s, steps, t, key, good)
    ensures RowIs(t, key, good)
    decreases |steps|
  {
    if steps == [] {
    } else {
      KeptRunKeeps(Apply(s, steps[0]), steps[1..], t, key, good);
    }
  }

  /**
   * A suspension or its end, from the write of an existing type's flag to the eviction and on: while the flag stays,
   * every load begun after the eviction returns it exactly when no load under way holds the opposite.
   */
  lemma FlagReachesLoads(s: State, writer: TaskId, key: string, flag: bool, meanwhile: seq<Step>, m: State)
    requires Enabled(s, Persist(writer)) && s.tasks[writer] == Writing(SetSuspended(key, flag)) && key in s.rows
    requires var good := (cfg: Config) => cfg.isSuspended == flag;
             KeptRun(Apply(s, Persist(writer)), meanwhile, m, key, good)
    requires writer in m.tasks && m.tasks[writer] == Evicting(key)
    ensures var good := (cfg: Config) => cfg.isSuspended == flag;
            var u := Apply(m, Evict(writer));
            Apply(s, Persist(writer)).rows == s.rows[key := s.rows[key].(isSuspended := flag)] &&
            (LaterLoadsSee(u, key, good) <==> NoOtherReader(u, key, good))
  {
    var good := (cfg: Config) => cfg.isSuspended == flag;
    WritePersists(s, writer, SetSuspended(key, flag));
    KeptRunKeeps(Apply(s, Persist(writer)), meanwhile, m, key, good);
    LaterLoadsSeeIff(m, writer, key, good);
  }

  /** An update likewise: every later load returns the very configuration saved. */
  lemma UpdateReachesLoads(s: State, writer: TaskId, saved: Config, meanwhile: seq<Step>, m: State)
    requires Enabled(s, Persist(writer)) && s.tasks[writer] == Writing(SaveConfig(saved))
    requires KeptRun(Apply(s, Persist(writer)), meanwhile, m, saved.eventType, (cfg: Config) => cfg == saved)
    requires writer in m.tasks && m.tasks[writer] == Evicting(saved.eventType)
    ensures var u := Apply(m, Evict(writer)); var good := (cfg: Config) => cfg == saved;
            LaterLoadsSee(u, saved.eventType, good) <==> NoOtherReader(u, saved.eventType, good)
  {
    var good := (cfg: Config) => cfg == saved;
    WritePersists(s, writer, SaveConfig(saved));
    KeptRunKeeps(Apply(s, Persist(writer)), meanwhile, m, saved.eventType, good);
    LaterLoadsSeeIff(m, writer, saved.eventType, good);
  }

  predicate SuspendedRow(s: State, key: string) {
    RowIs(s, key, IsSuspended)
  }

  /** No load under way has read an active configuration of this type that it has yet to store. */
  ghost predicate NoStaleReader(s: State, key: string) {
    NoOtherReader(s, key, IsSuspended)
  }

  ghost predicate Quiet(before: set<TaskId>, s: State, key: string) {
    Settled(before, s, key, IsSuspended)
  }

  /** After this state, while nobody unsuspends, no load begun later returns an active configuration of the type. */
  ghost predicate SuspensionHolds(s: State, key: string) {
    LaterLoadsSee(s, key, IsSuspended)
  }

  /**
   * When the eviction that ends a suspension has run, later loads see the suspension exactly when no load under way
   * still holds the active row.
   */
  lemma SuspensionHoldsIffNoStaleReader(s: State, writer: TaskId, key: string)
    requires Enabled(s, Evict(writer)) && s.tasks[writer] == Evicting(key) && SuspendedRow(s, key)
    ensures SuspensionHolds(Apply(s, Evict(writer)), key) <==> NoStaleReader(Apply(s, Evict(writer)), key)
  {
    LaterLoadsSeeIff(s, writer, key, IsSuspended);
  }

  /** A reader that still holds the active row stores it, and the next load is served from the cache. */
  lemma StaleReaderDefeatsSuspension(s: State, key: string, reader: TaskId)
      returns (steps: seq<Step>, t: State, load: TaskId)
    requires SuspendedRow(s, key) && reader in s.tasks && s.tasks[reader].Fetched?
    requires s.tasks[reader].key == key && !s.tasks[reader].value.isSuspended
    ensures KeptRun(s, steps, t, key, IsSuspended) && load !in s.tasks && load in t.tasks
    ensures t.tasks[load].Returned? && t.tasks[load].key == key && !t.tasks[load].value.isSuspended
  {
    steps, t, load := OtherReaderIsServed(s, key, IsSuspended, reader);
  }

  /** The entry a load leaves that reads and stores the row at this instant. */
  function FreshEntry(s: State, key: string): CacheEntry<Stored>
    requires key in s.rows
  {
    CacheEntry(Stored(s.rows[key], s.now, s.now), s.now + CONFIG_CACHE_TTL)
  }

  /** From a miss on: the query, and the Set if it found a row. */
  lemma MissedLoad(s: State, load: TaskId, key: string) returns (steps: seq<Step>, t: State)
    requires load in s.tasks && s.tasks[load] == Missing(key)
    ensures Run(s, steps, t) && t.rows == s.rows && load in t.tasks
    ensures if key in s.rows then
              t.tasks[load] == Returned(key, s.rows[key], s.now, s.now, s.now)
                  && t.entries == s.entries[key := FreshEntry(s, key)]
            else t.tasks[load] == Finished && t.entries == s.entries
  {
    var m := Apply(s, Fetch(load));
    if key in s.rows {
      t := Apply(m, Store(load));
      RunCons(m, Store(load), [], t);
      RunCons(s, Fetch(load), [Store(load)], t);
      steps := [Fetch(load)] + [Store(load)];
    } else {
      t := m;
      RunCons(s, Fetch(load), [], t);
      steps := [Fetch(load)];
    }
  }

  /** From a stale entry on: the cleanup, then a miss. */
  lemma StaleLoad(s: State, load: TaskId, key: string) returns (steps: seq<Step>, t: State)
    requires load in s.tasks && s.tasks[load] == Stale(key) && key in s.entries && !Unexpired(s.entries[key], s.now)
    ensures Run(s, steps, t) && t.rows == s.rows && load in t.tasks
    ensures if key in s.rows then
              t.tasks[load] == Returned(key, s.rows[key], s.now, s.now, s.now)
                  && t.entries == s.entries[key := FreshEntry(s, key)]
            else t.tasks[load] == Finished && t.entries == s.entries - {key}
  {
    var m := Apply(s, Clean(load));
    steps, t := MissedLoad(m, load, key);
    RunCons(s, Clean(load), steps, t);
    steps := [Clean(load)] + steps;
  }

  /** A load nobody interrupts does what LoadConfig promises: the unexpired entry, else the row, which it caches. */
  lemma UninterruptedLoad(s: State, load: TaskId, key: string) returns (steps: seq<Step>, t: State)
    requires load !in s.tasks
    ensures Run(s, steps, t) && t.rows == s.rows && load in t.tasks
    ensures if key in s.entries && Unexpired(s.entries[key], s.now) then
              var e := s.entries[key].value;
              t.tasks[load] == Returned(key, e.value, e.readAt, e.setAt, s.now) && t.entries == s.entries
            else if key in s.rows then
              t.tasks[load] == Returned(key, s.rows[key], s.now, s.now, s.now)
                  && t.entries == s.entries[key := FreshEntry(s, key)]
            else t.tasks[load] == Finished && t.entries == s.entries - {key}
  {
    var s1 := Apply(s, Begin(load, key));
    var s2 := Apply(s1, Peek(load));
    if key in s.entries {
      var s3 := Apply(s2, Check(load));
      if Unexpired(s.entries[key], s.now) {
        steps, t := [], s3;
      } else {
        steps, t := StaleLoad(s3, load, key);
      }
      RunCons(s2, Check(load), steps, t);
      steps := [Check(load)] + steps;
    } else {
      steps, t := MissedLoad(s2, load, key);
    }
    RunCons(s1, Peek(load), steps, t);
    RunCons(s, Begin(load, key), [Peek(load)] + steps, t);
    steps := [Begin(load, key)] + ([Peek(load)] + steps);
  }
}
