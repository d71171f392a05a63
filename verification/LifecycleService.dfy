/**
 * The lifecycle service itself, one method per operation, run while other clients write the same tables:
 * the writes they commit just before each access of this client are parameters.
 */
module LifecycleService {
  import opened EventModel
  import opened EventStore
  import opened Decisions
  import Dispatcher

  const MAX_RETRIES: nat := 10

  type Payloads = map<EventId, string>

  class PayloadRepository {
    var data: Payloads

    constructor ()
      ensures data == map[]
    {
      data := map[];
    }

    method Save(id: EventId, payload: string)
      modifies this
      ensures data == old(data)[id := payload]
    {
      data := data[id := payload];
    }

    method Load(id: EventId) returns (payload: Option<string>)
      ensures payload == if id in data then Some(data[id]) else None
    {
      if id in data {
        return Some(data[id]);
      }
      return None;
    }

    /** What other clients save between two accesses of this one. */
    method Interfere(saved: Payloads)
      modifies this
      ensures data == old(data) + saved
    {
      data := data + saved;
    }
  }

  datatype ErrorLog = ErrorLog(
    id: string, eventId: EventId, message: string, stackTrace: Option<string>, occurredAt: Time)

  class ErrorLogRepository {
    var logs: seq<ErrorLog>

    constructor ()
      ensures logs == []
    {
      logs := [];
    }

    method Save(log: ErrorLog, up: bool) returns (ok: bool)
      modifies this
      ensures ok == up
      ensures logs == if up then old(logs) + [log] else old(logs)
    {
      if !up {
        return false;
      }
      logs := logs + [log];
      return true;
    }
  }

  /** What others commit before each try, and the database's timestamp for it. */
  datatype Tries = Tries(others: nat -> seq<Write>, stamps: nat -> Time)

  /** Everything others commit before the first n tries. */
  function Interference(tries: Tries, n: nat): seq<Write> {
    if n == 0 then [] else Interference(tries, n - 1) + tries.others(n - 1)
  }

  /** A command is built from a snapshot of an existing row, and rows only move forward. */
  predicate FromSnapshot(rows: Rows, cmd: Command) {
    cmd.id in rows && cmd.version <= rows[cmd.id].version
  }

  /** Does the first try hit the row? */
  predicate FirstTryHits(rows: Rows, cmd: Command, tries: Tries) {
    Hits(ExecAll(rows, tries.others(0)), cmd)
  }

  /** The table after the retry loop: the first try decides, a lost race leaves only what the others wrote. */
  function AfterTries(rows: Rows, cmd: Command, tries: Tries): Rows {
    if FirstTryHits(rows, cmd, tries) then Exec(ExecAll(rows, tries.others(0)), Update(cmd, tries.stamps(0)))
    else ExecAll(rows, Interference(tries, MAX_RETRIES))
  }

  /** The circumstances of one publication: others write the table before the insert and before the reload. */
  datatype PublishEnv = PublishEnv(
    id: EventId, cfg: Option<Config>, now: Time, stamp: Time, others: seq<Write>, later: seq<Write>)

  predicate UsableEnv(env: PublishEnv) {
    env.cfg.Some? ==> ValidConfig(env.cfg.value)
  }

  datatype Tables = Tables(rows: Rows, payloads: Payloads)

  /** A publication creates at most one row, and stores the payload exactly when it did. */
  function Published(t: Tables, r: PublishRequest, env: PublishEnv): Tables
    requires UsableEnv(env)
  {
    if env.cfg.None? then t
    else
      var rows := ExecAll(t.rows, env.others);
      var created := Exec(rows, Insert(InitiationFor(env.id, r, env.cfg.value, env.now), env.stamp));
      Tables(ExecAll(created, env.later),
             if env.id in rows then t.payloads else t.payloads[env.id := r.payload])
  }

  function PublishedFirst(t: Tables, rs: seq<PublishRequest>, envs: seq<PublishEnv>, n: nat): Tables
    requires n <= |rs| <= |envs| && forall i :: 0 <= i < |envs| ==> UsableEnv(envs[i])
  {
    if n == 0 then t else Published(PublishedFirst(t, rs, envs, n - 1), rs[n - 1], envs[n - 1])
  }

  lemma PublishedNext(t: Tables, rs: seq<PublishRequest>, envs: seq<PublishEnv>, n: nat)
    requires n < |rs| <= |envs| && forall i :: 0 <= i < |envs| ==> UsableEnv(envs[i])
    ensures PublishedFirst(t, rs, envs, n + 1) == Published(PublishedFirst(t, rs, envs, n), rs[n], envs[n])
  {
  }

  /** The row a failed attempt leaves when another is scheduled. */
  function Rescheduled(e: Event, cfg: Config, at: Time, stamp: Time): Event
    requires ValidConfig(cfg)
  {
    var delay := RetryDelay(cfg.attempts, e.attemptsFailed + 2);
    var share := GoDiv(cfg.eventLifespanSeconds, cfg.maxAttempts);
    e.(status := AwaitingProcessing, scheduleState := if delay > 0 then Sleeping else Active,
       version := e.version + 1, updatedAt := stamp,
       attemptsLeft := e.attemptsLeft - 1, attemptsFailed := e.attemptsFailed + 1,
       attemptScheduledAt := Some(StoredTime(at + delay * SECOND)),
       attemptDueDate := Some(StoredTime(at + delay * SECOND + share * SECOND)))
  }

  lemma SwitchReschedules(e: Event, cfg: Config, judgedAt: Time, at: Time, stamp: Time)
    requires Permissible(e, Switch(cfg, judgedAt, at))
    ensures UpdatedRow(e, CommandOf(e, Switch(cfg, judgedAt, at)), stamp) == Rescheduled(e, cfg, at, stamp)
  {
  }

  /** The row a failed attempt leaves when it was the last. */
  function FailedForGood(e: Event, stamp: Time): Event {
    e.(status := Failed, scheduleState := Inactive, version := e.version + 1, updatedAt := stamp,
       attemptsFailed := e.attemptsFailed + 1)
  }

  datatype Outcome =
    | Done | ConfigMissing | EventMissing | RetriesExceeded | BrokerFailed
    | DispatchRejected(error: Dispatcher.DispatchError)

  datatype Acquired =
    | Refused | PayloadMissing | Granted(event: Event, payload: string) | AcquireFailed(outcome: Outcome)

  /** A row that was loaded survives the retry loop and whatever others write after it. */
  lemma RowSurvives(rows: Rows, cmd: Command, tries: Tries, afterwards: seq<Write>)
    requires cmd.id in rows && FirstTryHits(rows, cmd, tries)
    ensures cmd.id in ExecAll(AfterTries(rows, cmd, tries), afterwards)
  {
    VersionsOnlyGrow(rows, tries.others(0), cmd.id);
    VersionsOnlyGrow(AfterTries(rows, cmd, tries), afterwards, cmd.id);
  }

  /** The row a loaded snapshot meets at the first try, and what a hit makes of it. */
  lemma FirstTry(rows: Rows, e: Event, cmd: Command, tries: Tries)
    requires e.id in rows && rows[e.id] == e && cmd.id == e.id && cmd.version == e.version
    ensures var mid := ExecAll(rows, tries.others(0));
            e.id in mid && (FirstTryHits(rows, cmd, tries) <==> mid[e.id] == e) &&
            (mid[e.id] == e ==> AfterTries(rows, cmd, tries) == mid[e.id := UpdatedRow(e, cmd, tries.stamps(0))])
  {
    VersionsOnlyGrow(rows, tries.others(0), e.id);
  }

  /**
   * What a publication comes to: nothing without a configuration or for a taken identifier; otherwise one new row, made
   * of the request and the configuration, and the request's payload. Others write before and after.
   */
  ghost predicate IsPublication(t: Tables, r: PublishRequest, env: PublishEnv, u: Tables) {
    if env.cfg.None? then u == t
    else
      var mid := ExecAll(t.rows, env.others);
      if env.id in mid then u.rows == ExecAll(mid, env.later) && u.payloads == t.payloads
      else
        && u.payloads == t.payloads[env.id := r.payload]
        && exists row :: IsNewRow(row, env.id, r, env.cfg.value, env.now, env.stamp)
                         && u.rows == ExecAll(mid[env.id := row], env.later)
  }

  lemma PublicationCreates(t: Tables, r: PublishRequest, env: PublishEnv)
    requires UsableEnv(env)
    ensures IsPublication(t, r, env, Published(t, r, env))
  {
    if env.cfg.Some? {
      PublicationIsNewRow(env.id, r, env.cfg.value, env.now, env.stamp);
    }
  }

  /** The row of this identifier carries the request's names, and its payload is the request's. */
  predicate Carries(t: Tables, id: EventId, r: PublishRequest) {
    && id in t.rows && t.rows[id].eventType == r.eventType && t.rows[id].flowType == r.flowType
    && t.rows[id].flowId == r.flowId && t.rows[id].onFailEventType == r.onFailEventType
    && id in t.payloads && t.payloads[id] == r.payload
  }

  /** Whatever others write afterwards, the new row keeps the request's names. */
  lemma PublicationCarries(t: Tables, r: PublishRequest, env: PublishEnv)
    requires UsableEnv(env) && env.cfg.Some? && env.id !in ExecAll(t.rows, env.others)
    ensures Carries(Published(t, r, env), env.id, r)
  {
    var mid := ExecAll(t.rows, env.others);
    NamesSurvive(Exec(mid, Insert(InitiationFor(env.id, r, env.cfg.value, env.now), env.stamp)), env.later, env.id);
  }

  /**
   * What becomes of the tables once the failure is in: an on-fail type is published in the failed event's flow, with
   * the failed event's payload or the empty one; without it nothing more happens.
   */
  ghost predicate AfterFailure(e: Event, failed: Rows, data: Payloads, saved: Payloads, env: PublishEnv, u: Tables) {
    match e.onFailEventType
    case None => u == Tables(failed, data)
    case Some(onFail) =>
      var known := data + saved;
      var payload := if e.id in known then known[e.id] else "";
      var r := PublishRequest(onFail, e.flowType, e.flowId, payload, None);
      && IsPublication(Tables(failed, known), r, env, u)
      && (env.cfg.Some? && env.id !in ExecAll(failed, env.others) ==> Carries(u, env.id, r))
  }

  lemma OnFailFollows(e: Event, failed: Rows, data: Payloads, saved: Payloads, env: PublishEnv)
    requires UsableEnv(env) && e.onFailEventType.Some?
    ensures var known := data + saved;
            var r := OnFailRequest(e, if e.id in known then known[e.id] else "");
            AfterFailure(e, failed, data, saved, env, Published(Tables(failed, known), r, env))
  {
    var known := data + saved;
    var r := OnFailRequest(e, if e.id in known then known[e.id] else "");
    PublicationCreates(Tables(failed, known), r, env);
    if env.cfg.Some? && env.id !in ExecAll(failed, env.others) {
      PublicationCarries(Tables(failed, known), r, env);
    }
  }

  /** Do these writes insert a row of this identifier? */
  predicate Inserts(ws: seq<Write>, id: EventId) {
    exists i :: 0 <= i < |ws| && ws[i].Insert? && ws[i].icmd.id == id
  }

  lemma {:induction false} NotInserted(rows: Rows, ws: seq<Write>, id: EventId)
    requires id !in rows && !Inserts(ws, id)
    ensures id !in ExecAll(rows, ws)
    decreases |ws|
  {
    if ws == [] {
    } else {
      assert ws[0].Insert? ==> ws[0].icmd.id != id;
      assert forall i :: 0 <= i < |ws[1..]| ==> ws[1..][i] == ws[i + 1];
      NotInserted(Exec(rows, ws[0]), ws[1..], id);
    }
  }

  /** Nobody else uses the identifier of the i-th publication before it. */
  ghost predicate OwnIdentifier(envs: seq<PublishEnv>, i: nat)
    requires i < |envs|
  {
    && !Inserts(envs[i].others, envs[i].id)
    && forall j :: 0 <= j < i ==>
         envs[j].id != envs[i].id && !Inserts(envs[j].others, envs[i].id) && !Inserts(envs[j].later, envs[i].id)
  }

  lemma PublishedKeepsOut(t: Tables, r: PublishRequest, env: PublishEnv, id: EventId)
    requires UsableEnv(env) && id !in t.rows && env.id != id && !Inserts(env.others, id) && !Inserts(env.later, id)
    ensures id !in Published(t, r, env).rows
  {
    if env.cfg.Some? {
      NotInserted(t.rows, env.others, id);
      var created := Exec(ExecAll(t.rows, env.others),
                          Insert(InitiationFor(env.id, r, env.cfg.value, env.now), env.stamp));
      NotInserted(created, env.later, id);
    }
  }

  lemma {:induction false} AbsentBefore(t: Tables, rs: seq<PublishRequest>, envs: seq<PublishEnv>, i: nat, n: nat)
    requires n <= i < |rs| <= |envs| && forall j :: 0 <= j < |envs| ==> UsableEnv(envs[j])
    requires envs[i].id !in t.rows && OwnIdentifier(envs, i)
    ensures envs[i].id !in PublishedFirst(t, rs, envs, n).rows
    decreases n
  {
    if n == 0 {
    } else {
      AbsentBefore(t, rs, envs, i, n - 1);
      PublishedKeepsOut(PublishedFirst(t, rs, envs, n - 1), rs[n - 1], envs[n - 1], envs[i].id);
    }
  }

  lemma PublishedKeeps(t: Tables, r: PublishRequest, env: PublishEnv, id: EventId, q: PublishRequest)
    requires UsableEnv(env) && Carries(t, id, q)
    ensures Carries(Published(t, r, env), id, q)
  {
    if env.cfg.Some? {
      NamesSurvive(t.rows, env.others, id);
      var mid := ExecAll(t.rows, env.others);
      NamesSurvive(Exec(mid, Insert(InitiationFor(env.id, r, env.cfg.value, env.now), env.stamp)), env.later, id);
    }
  }

  /** Every request of a list whose type is configured is published: its row and its payload are there at the end. */
  lemma {:induction false} EveryRequestIsPublished(t: Tables, rs: seq<PublishRequest>, envs: seq<PublishEnv>,
                                                   i: nat, n: nat)
    requires i < n <= |rs| <= |envs| && forall j :: 0 <= j < |envs| ==> UsableEnv(envs[j])
    requires envs[i].cfg.Some? && envs[i].id !in t.rows && OwnIdentifier(envs, i)
    ensures Carries(PublishedFirst(t, rs, envs, n), envs[i].id, rs[i])
    decreases n
  {
    var before := PublishedFirst(t, rs, envs, n - 1);
    if n == i + 1 {
      AbsentBefore(t, rs, envs, i, i);
      NotInserted(before.rows, envs[i].others, envs[i].id);
      PublicationCarries(before, rs[i], envs[i]);
    } else {
      EveryRequestIsPublished(t, rs, envs, i, n - 1);
      PublishedKeeps(before, rs[n - 1], envs[n - 1], envs[i].id, rs[i]);
    }
  }

  /** A client that is behind stays behind. */
  lemma BehindStaysBehind(rows: Rows, cmd: Command, ws: seq<Write>)
    requires cmd.id in rows && cmd.version < rows[cmd.id].version
    ensures !Hits(ExecAll(rows, ws), cmd)
    ensures cmd.id in ExecAll(rows, ws) && cmd.version < ExecAll(rows, ws)[cmd.id].version
  {
    VersionsOnlyGrow(rows, ws, cmd.id);
  }

  class Service {
    const events: EventRepository
    const payloads: PayloadRepository
    const errorLogs: ErrorLogRepository
    var broker: seq<Message>

    constructor (events: EventRepository, payloads: PayloadRepository, errorLogs: ErrorLogRepository)
      ensures this.events == events && this.payloads == payloads && this.errorLogs == errorLogs && broker == []
    {
      this.events := events;
      this.payloads := payloads;
      this.errorLogs := errorLogs;
      broker := [];
    }

    /**
     * The retry loop around one fixed command. It succeeds exactly when the very first try commits; otherwise every
     * try fails, and the flag the caller captured is set exactly when the loop reports success.
     */
    method WithRetry(cmd: Command, tries: Tries) returns (ok: bool, captured: bool, attempts: nat)
      requires FromSnapshot(events.rows, cmd)
      modifies events
      ensures ok <==> FirstTryHits(old(events.rows), cmd, tries)
      ensures captured == ok
      ensures attempts == if ok then 1 else 10
      ensures events.rows == AfterTries(old(events.rows), cmd, tries)
    {
      captured, attempts := false, 0;
      ghost var start := events.rows;
      var i := 0;
      while i < MAX_RETRIES
        invariant 0 <= i <= MAX_RETRIES && attempts == i && !captured
        invariant events.rows == ExecAll(start, Interference(tries, i))
        invariant i == 0 ==> FromSnapshot(events.rows, cmd)
        invariant i > 0 ==>
                    !FirstTryHits(start, cmd, tries) && cmd.id in events.rows
                    && cmd.version < events.rows[cmd.id].version
      {
        ghost var before := events.rows;
        ExecAllAppend(start, Interference(tries, i), tries.others(i));
        VersionsOnlyGrow(before, tries.others(i), cmd.id);
        if i > 0 {
          BehindStaysBehind(before, cmd, tries.others(i));
        }
        events.Interfere(tries.others(i));
        if i == 0 {
          assert Interference(tries, 1) == tries.others(0);
        }
        var result := events.ExecOptimistic(cmd, tries.stamps(i));
        attempts := attempts + 1;
        if result.Updated? {
          captured := true;
          return true, captured, attempts;
        }
        i := i + 1;
      }
      return false, captured, attempts;
    }

    /** The scan for the entry of the next attempt. */
    method FindRetryDelay(attempts: seq<AttemptConfig>, number: int) returns (delay: int)
      ensures delay == RetryDelay(attempts, number)
    {
      delay := 0;
      for i := 0 to |attempts|
        invariant delay == 0 && RetryDelay(attempts, number) == RetryDelay(attempts[i..], number)
      {
        assert attempts[i..][0] == attempts[i] && attempts[i..][1..] == attempts[i + 1..];
        if attempts[i].attemptNumber == number {
          return attempts[i].delayBeforeAttemptSeconds;
        }
      }
    }

    /** Only the call that creates the row stores its payload; every call returns the row as it then is. */
    method InitiateIdempotently(cmd: InitiationCommand, stamp: Time, payload: string, later: seq<Write>)
        returns (event: Event)
      modifies events, payloads
      ensures events.rows == ExecAll(Exec(old(events.rows), Insert(cmd, stamp)), later)
      ensures payloads.data == if cmd.id in old(events.rows) then old(payloads.data)
              else old(payloads.data)[cmd.id := payload]
      ensures cmd.id in events.rows && event == events.rows[cmd.id]
      ensures event.version >= (if cmd.id in old(events.rows) then old(events.rows)[cmd.id].version else 1)
    {
      var created := events.Create(cmd, stamp);
      if created {
        payloads.Save(cmd.id, payload);
      }
      VersionsOnlyGrow(events.rows, later, cmd.id);
      events.Interfere(later);
      var loaded := events.Load(cmd.id);
      return loaded.value;
    }

    method Publish(r: PublishRequest, env: PublishEnv) returns (id: Option<EventId>)
      requires UsableEnv(env)
      modifies events, payloads
      ensures Tables(events.rows, payloads.data) == Published(Tables(old(events.rows), old(payloads.data)), r, env)
      ensures id == if env.cfg.Some? then Some(env.id) else None
      ensures IsPublication(Tables(old(events.rows), old(payloads.data)), r, env, Tables(events.rows, payloads.data))
    {
      PublicationCreates(Tables(events.rows, payloads.data), r, env);
      if env.cfg.None? {
        return None;
      }
      var cfg := env.cfg.value;
      var delay := 0;
      if |cfg.attempts| > 0 {
        delay := cfg.attempts[0].delayBeforeAttemptSeconds * SECOND;
      }
      var scheduledAt := env.now + delay;
      var dueDate := env.now + cfg.eventLifespanSeconds * SECOND;
      var attemptDue := scheduledAt + GoDiv(cfg.eventLifespanSeconds, cfg.maxAttempts) * SECOND;
      var sched := Active;
      if delay > 0 {
        sched := Sleeping;
      }
      var cmd := InitiationCommand(env.id, r.eventType, r.flowType, r.flowId, r.onFailEventType, AwaitingProcessing,
                                   cfg.maxAttempts, Some(scheduledAt), Some(attemptDue), Some(dueDate), sched);
      events.Interfere(env.others);
      var _ := InitiateIdempotently(cmd, env.stamp, r.payload, env.later);
      return Some(env.id);
    }

    method SendToBroker(event: Event, payload: string, now: Time, publishedAt: Time, brokerUp: bool)
        returns (outcome: Outcome)
      modifies `broker
      ensures match Dispatcher.Dispatched(event, payload, now, publishedAt)
              case Rejected(e) => outcome == DispatchRejected(e) && broker == old(broker)
              case Published(m) => if brokerUp then outcome == Done && broker == old(broker) + [m]
                                   else outcome == BrokerFailed && broker == old(broker)
      ensures outcome == Done ==>
                event.eventProcessingDueDate.Some? && now < event.eventProcessingDueDate.value &&
                |broker| == |old(broker)| + 1 && broker[..|old(broker)|] == old(broker) &&
                var m := broker[|old(broker)|];
                m.subject == "event-engine." + ToLower(event.eventType) && m.id == event.id &&
                m.eventType == event.eventType && m.flowType == event.flowType && m.flowId == event.flowId &&
                m.payload == payload && m.publishedAt % SECOND == 0 &&
                m.publishedAt <= publishedAt < m.publishedAt + SECOND &&
                m.ttlSeconds == Dispatcher.BucketFor(GoDiv(event.eventProcessingDueDate.value - now, SECOND))
      ensures outcome != Done ==> broker == old(broker)
      ensures outcome == DispatchRejected(Dispatcher.Expired) <==>
                event.eventProcessingDueDate.Some? && event.eventProcessingDueDate.value <= now
    {
      if event.eventProcessingDueDate.None? {
        return DispatchRejected(Dispatcher.NoDueDate);
      }
      var remaining := event.eventProcessingDueDate.value - now;
      if remaining <= 0 {
        return DispatchRejected(Dispatcher.Expired);
      }
      var ttl := Dispatcher.SelectTtlBucket(remaining);
      var m := Message("event-engine." + ToLower(event.eventType), event.id, event.eventType, event.flowType,
                       event.flowId, ttl, Dispatcher.TruncatedToSecond(publishedAt), payload);
      if !brokerUp {
        return BrokerFailed;
      }
      broker := broker + [m];
      return Done;
    }

    /** Awaiting events of the flow created by now; all of them unless the batch is full. */
    method FindPendingEvents(flowType: string, now: Time, batchSize: nat) returns (found: seq<Event>)
      requires WellKeyed(events.rows)
      ensures |found| <= batchSize
      ensures forall e :: e in found ==>
                e.id in events.rows && events.rows[e.id] == e && e.flowType == flowType &&
                e.status == AwaitingProcessing && e.createdAt <= now
      ensures forall i, j :: 0 <= i < j < |found| ==> found[i].id != found[j].id
      ensures |found| < batchSize ==>
                forall id ::
                  (id in events.rows && events.rows[id].flowType == flowType
                   && events.rows[id].status == AwaitingProcessing && events.rows[id].createdAt <= now)
                  ==> events.rows[id] in found
    {
      found := events.Find(FilterOf(PendingFinder, flowType, now), batchSize);
    }

    /** Active events of the flow whose attempt was scheduled by now; all of them unless the batch is full. */
    method FindScheduledEvents(flowType: string, now: Time, batchSize: nat) returns (found: seq<Event>)
      requires WellKeyed(events.rows)
      ensures |found| <= batchSize
      ensures forall e :: e in found ==>
                e.id in events.rows && events.rows[e.id] == e && e.flowType == flowType &&
                e.scheduleState == Active && e.attemptScheduledAt.Some? && e.attemptScheduledAt.value <= now
      ensures forall i, j :: 0 <= i < j < |found| ==> found[i].id != found[j].id
      ensures |found| < batchSize ==>
                forall id ::
                  (id in events.rows && events.rows[id].flowType == flowType
                   && events.rows[id].scheduleState == Active && events.rows[id].attemptScheduledAt.Some?
                   && events.rows[id].attemptScheduledAt.value <= now)
                  ==> events.rows[id] in found
    {
      found := events.Find(FilterOf(ScheduledFinder, flowType, now), batchSize);
    }

    /** Sleeping events of the flow whose attempt was scheduled by now; all of them unless the batch is full. */
    method FindExpiredSuspendedEvents(flowType: string, now: Time, batchSize: nat) returns (found: seq<Event>)
      requires WellKeyed(events.rows)
      ensures |found| <= batchSize
      ensures forall e :: e in found ==>
                e.id in events.rows && events.rows[e.id] == e && e.flowType == flowType &&
                e.scheduleState == Sleeping && e.attemptScheduledAt.Some? && e.attemptScheduledAt.value <= now
      ensures forall i, j :: 0 <= i < j < |found| ==> found[i].id != found[j].id
      ensures |found| < batchSize ==>
                forall id ::
                  (id in events.rows && events.rows[id].flowType == flowType
                   && events.rows[id].scheduleState == Sleeping && events.rows[id].attemptScheduledAt.Some?
                   && events.rows[id].attemptScheduledAt.value <= now)
                  ==> events.rows[id] in found
    {
      found := events.Find(FilterOf(ExpiredSuspendedFinder, flowType, now), batchSize);
    }

    /** A suspended type is left alone; otherwise the snapshot is dispatched and sent at most once. */
    method ProcessPendingEvent(finder: Finder, event: Event, cfg: Option<Config>, tries: Tries, saved: Payloads,
                               now: Time, publishedAt: Time, brokerUp: bool) returns (outcome: Outcome)
      requires finder != ExpiredSuspendedFinder && FoundBy(finder, event)
      requires event.id in events.rows && event.version <= events.rows[event.id].version
      modifies events, payloads, `broker
      ensures cfg.None? ==> outcome == ConfigMissing
      ensures cfg.None? || cfg.value.isSuspended ==>
                events.rows == old(events.rows) && payloads.data == old(payloads.data) && broker == old(broker)
      ensures cfg.Some? && cfg.value.isSuspended ==> outcome == Done
      ensures cfg.Some? && !cfg.value.isSuspended ==>
                var cmd := CommandOf(event, Dispatch(finder, cfg.value));
                events.rows == AfterTries(old(events.rows), cmd, tries) &&
                (!FirstTryHits(old(events.rows), cmd, tries) ==>
                   outcome == RetriesExceeded && payloads.data == old(payloads.data) && broker == old(broker)) &&
                (FirstTryHits(old(events.rows), cmd, tries) ==>
                   var payload := if event.id in payloads.data then payloads.data[event.id] else "{}";
                   payloads.data == old(payloads.data) + saved &&
                   match Dispatcher.Dispatched(event, payload, now, publishedAt)
                   case Rejected(e) => outcome == DispatchRejected(e) && broker == old(broker)
                   case Published(m) => if brokerUp then outcome == Done && broker == old(broker) + [m]
                                        else outcome == BrokerFailed && broker == old(broker))
      ensures cfg.Some? && !cfg.value.isSuspended ==>
                var mid := ExecAll(old(events.rows), tries.others(0));
                event.id in mid &&
                if mid[event.id].version != event.version then outcome == RetriesExceeded && broker == old(broker)
                else
                  outcome != RetriesExceeded &&
                  events.rows == mid[event.id := mid[event.id].(status := Dispatched, scheduleState := Active,
                                                                version := event.version + 1,
                                                                updatedAt := tries.stamps(0))]
    {
      VersionsOnlyGrow(events.rows, tries.others(0), event.id);
      if cfg.None? {
        return ConfigMissing;
      }
      if cfg.value.isSuspended {
        return Done;
      }
      var cmd := MarkAsDispatched(event.id, event.version, Active);
      var ok, dispatched, _ := WithRetry(cmd, tries);
      if !ok {
        return RetriesExceeded;
      }
      assert dispatched;
      payloads.Interfere(saved);
      var stored := payloads.Load(event.id);
      var payload := if stored.Some? then stored.value else "{}";
      outcome := SendToBroker(event, payload, now, publishedAt, brokerUp);
    }

    /** The permit goes to the caller whose update replaces the dispatched row it loaded. */
    method TryAcquireProcessingPermit(id: EventId, ghost msg: Message, before: seq<Write>, cfg: Option<Config>,
                                      at: Time, tries: Tries, saved: Payloads, afterwards: seq<Write>)
        returns (result: Acquired)
      requires msg.id == id
      requires cfg.Some? ==> ValidConfig(cfg.value)
      requires WellKeyed(ExecAll(events.rows, before))
      modifies events, payloads
      ensures var r0 := ExecAll(old(events.rows), before);
              if id !in r0 then
                result == AcquireFailed(EventMissing) && events.rows == r0 && payloads.data == old(payloads.data)
              else if r0[id].status != Dispatched then
                result == Refused && events.rows == r0 && payloads.data == old(payloads.data)
              else if cfg.None? then
                result == AcquireFailed(ConfigMissing) && events.rows == r0 && payloads.data == old(payloads.data)
              else
                var cmd := CommandOf(r0[id], Permit(cfg.value, at, msg));
                var r1 := AfterTries(r0, cmd, tries);
                if !FirstTryHits(r0, cmd, tries) then
                  result == AcquireFailed(RetriesExceeded) && events.rows == r1 && payloads.data == old(payloads.data)
                else
                  payloads.data == old(payloads.data) + saved &&
                  if id !in payloads.data then result == PayloadMissing && events.rows == r1
                  else
                    events.rows == ExecAll(r1, afterwards) && id in events.rows
                    && result == Granted(events.rows[id], payloads.data[id])
      ensures result.Granted? ==>
                var r0 := ExecAll(old(events.rows), before);
                var mid := ExecAll(r0, tries.others(0));
                id in r0 && r0[id].status == Dispatched && cfg.Some? && id in mid && mid[id] == r0[id] &&
                var share := GoDiv(cfg.value.eventLifespanSeconds, cfg.value.maxAttempts);
                events.rows ==
                  ExecAll(mid[id := mid[id].(status := BeingProcessed, scheduleState := Inactive,
                                             version := mid[id].version + 1, updatedAt := tries.stamps(0),
                                             attemptDueDate := Some(StoredTime(at + share * SECOND)),
                                             eventProcessingDueDate := StoredOptTime(mid[id].eventProcessingDueDate))],
                          afterwards)
    {
      events.Interfere(before);
      ghost var r0 := events.rows;
      var loaded := events.Load(id);
      if loaded.None? {
        return AcquireFailed(EventMissing);
      }
      var e := loaded.value;
      if e.status != Dispatched {
        return Refused;
      }
      if cfg.None? {
        return AcquireFailed(ConfigMissing);
      }
      var lifespan := GoDiv(cfg.value.eventLifespanSeconds, cfg.value.maxAttempts) * SECOND;
      var cmd := AcquirePermit(e.id, e.version, Some(at + lifespan), e.eventProcessingDueDate, Inactive);
      assert cmd == CommandOf(e, Permit(cfg.value, at, msg));
      var ok, acquired, _ := WithRetry(cmd, tries);
      if !ok {
        return AcquireFailed(RetriesExceeded);
      }
      assert acquired;
      FirstTry(r0, e, cmd, tries);
      payloads.Interfere(saved);
      var payload := payloads.Load(id);
      if payload.None? {
        return PayloadMissing;
      }
      RowSurvives(r0, cmd, tries, afterwards);
      events.Interfere(afterwards);
      var reloaded := events.Load(id);
      return Granted(reloaded.value, payload.value);
    }

    method ActivateSuspendedEvent(event: Event, tries: Tries) returns (outcome: Outcome)
      requires FoundBy(ExpiredSuspendedFinder, event)
      requires event.id in events.rows && event.version <= events.rows[event.id].version
      modifies events
      ensures events.rows == AfterTries(old(events.rows), CommandOf(event, Reactivation), tries)
      ensures outcome == if FirstTryHits(old(events.rows), CommandOf(event, Reactivation), tries) then Done
              else RetriesExceeded
      ensures var mid := ExecAll(old(events.rows), tries.others(0));
              event.id in mid &&
              if mid[event.id].version != event.version then outcome == RetriesExceeded
              else
                outcome == Done &&
                events.rows == mid[event.id := mid[event.id].(status := AwaitingProcessing, scheduleState := Active,
                                                              version := event.version + 1,
                                                              updatedAt := tries.stamps(0))]
    {
      VersionsOnlyGrow(events.rows, tries.others(0), event.id);
      var ok, _, _ := WithRetry(ActivateSuspended(event.id, event.version, Active), tries);
      return if ok then Done else RetriesExceeded;
    }

    /** Spinoffs are published only after the success committed, in order, in the event's own flow. */
    method ReportSuccess(id: EventId, before: seq<Write>, spinoffs: seq<Spinoff>, tries: Tries, envs: seq<PublishEnv>)
        returns (outcome: Outcome)
      requires |envs| == |spinoffs| && forall i :: 0 <= i < |envs| ==> UsableEnv(envs[i])
      requires WellKeyed(ExecAll(events.rows, before))
      modifies events, payloads
      ensures var r0 := ExecAll(old(events.rows), before);
              if id !in r0 then outcome == EventMissing && events.rows == r0 && payloads.data == old(payloads.data)
              else
                var cmd := CommandOf(r0[id], Success(spinoffs));
                var r1 := AfterTries(r0, cmd, tries);
                if !FirstTryHits(r0, cmd, tries) then
                  outcome == RetriesExceeded && events.rows == r1 && payloads.data == old(payloads.data)
                else
                  outcome == Done &&
                  Tables(events.rows, payloads.data) ==
                  PublishedFirst(Tables(r1, old(payloads.data)), SpinoffRequests(r0[id], spinoffs), envs, |spinoffs|)
      ensures var r0 := ExecAll(old(events.rows), before);
              var mid := ExecAll(r0, tries.others(0));
              id in r0 ==>
                id in mid &&
                if mid[id] != r0[id] then outcome == RetriesExceeded
                else
                  var row := mid[id].(status := Processed, scheduleState := Inactive,
                                      version := mid[id].version + 1, updatedAt := tries.stamps(0));
                  Tables(events.rows, payloads.data) ==
                  PublishedFirst(Tables(mid[id := row], old(payloads.data)), SpinoffRequests(mid[id], spinoffs),
                                 envs, |spinoffs|)
    {
      events.Interfere(before);
      var loaded := events.Load(id);
      if loaded.None? {
        return EventMissing;
      }
      var e := loaded.value;
      var cmd := MarkAsSucceeded(e.id, e.version);
      assert cmd == CommandOf(e, Success(spinoffs));
      FirstTry(events.rows, e, cmd, tries);
      var ok, _, _ := WithRetry(cmd, tries);
      if !ok {
        return RetriesExceeded;
      }
      ghost var start := Tables(events.rows, payloads.data);
      ghost var requests := SpinoffRequests(e, spinoffs);
      for i := 0 to |spinoffs|
        invariant Tables(events.rows, payloads.data) == PublishedFirst(start, requests, envs, i)
      {
        PublishedNext(start, requests, envs, i);
        var s := spinoffs[i];
        var r := PublishRequest(s.eventType, e.flowType, e.flowId, s.payload, s.onFailEventType);
        assert r == requests[i];
        var _ := Publish(r, envs[i]);
      }
      return Done;
    }

    method ScheduleNextAttempt(e: Event, cfg: Config, ghost judgedAt: Time, at: Time, tries: Tries)
        returns (outcome: Outcome)
      requires ValidConfig(cfg) && RetriesRemain(e, judgedAt) && judgedAt <= at
      requires e.id in events.rows && e.version <= events.rows[e.id].version
      modifies events
      ensures var cmd := CommandOf(e, Switch(cfg, judgedAt, at));
              events.rows == AfterTries(old(events.rows), cmd, tries) &&
              outcome == if FirstTryHits(old(events.rows), cmd, tries) then Done else RetriesExceeded
      ensures old(events.rows)[e.id] == e ==>
                var mid := ExecAll(old(events.rows), tries.others(0));
                e.id in mid &&
                if mid[e.id] != e then outcome == RetriesExceeded
                else outcome == Done && events.rows == mid[e.id := Rescheduled(e, cfg, at, tries.stamps(0))]
    {
      var delay := FindRetryDelay(cfg.attempts, e.attemptsFailed + 2);
      var scheduledAt := at + delay * SECOND;
      var attemptDue := scheduledAt + GoDiv(cfg.eventLifespanSeconds, cfg.maxAttempts) * SECOND;
      var sched := Active;
      if delay > 0 {
        sched := Sleeping;
      }
      var cmd := SwitchToNextAttempt(e.id, e.version, e.attemptsLeft - 1, e.attemptsFailed + 1,
                                     Some(scheduledAt), Some(attemptDue), sched);
      assert cmd == CommandOf(e, Switch(cfg, judgedAt, at));
      if events.rows[e.id] == e {
        FirstTry(events.rows, e, cmd, tries);
        SwitchReschedules(e, cfg, judgedAt, at, tries.stamps(0));
      }
      var ok, _, _ := WithRetry(cmd, tries);
      return if ok then Done else RetriesExceeded;
    }

    method MarkAsTerminallyFailed(e: Event, ghost judgedAt: Time, tries: Tries, saved: Payloads, env: PublishEnv)
        returns (outcome: Outcome)
      requires !RetriesRemain(e, judgedAt) && UsableEnv(env)
      requires e.id in events.rows && e.version <= events.rows[e.id].version
      modifies events, payloads
      ensures var cmd := CommandOf(e, Failure(judgedAt));
              var r1 := AfterTries(old(events.rows), cmd, tries);
              if !FirstTryHits(old(events.rows), cmd, tries) then
                outcome == RetriesExceeded && events.rows == r1 && payloads.data == old(payloads.data)
              else
                outcome == Done &&
                Tables(events.rows, payloads.data) ==
                if e.onFailEventType.Some? then
                  var data := old(payloads.data) + saved;
                  Published(Tables(r1, data), OnFailRequest(e, if e.id in data then data[e.id] else ""), env)
                else Tables(r1, old(payloads.data))
      ensures old(events.rows)[e.id] == e ==>
                var mid := ExecAll(old(events.rows), tries.others(0));
                e.id in mid &&
                if mid[e.id] != e then outcome == RetriesExceeded
                else
                  outcome == Done &&
                  AfterFailure(e, mid[e.id := FailedForGood(e, tries.stamps(0))], old(payloads.data), saved, env,
                               Tables(events.rows, payloads.data))
    {
      if events.rows[e.id] == e {
        FirstTry(events.rows, e, MarkAsFailed(e.id, e.version, e.attemptsFailed + 1), tries);
      }
      var ok, _, _ := WithRetry(MarkAsFailed(e.id, e.version, e.attemptsFailed + 1), tries);
      if !ok {
        return RetriesExceeded;
      }
      if e.onFailEventType.Some? {
        OnFailFollows(e, events.rows, payloads.data, saved, env);
        payloads.Interfere(saved);
        var stored := payloads.Load(e.id);
        var payload := if stored.Some? then stored.value else "";
        var r := PublishRequest(e.onFailEventType.value, e.flowType, e.flowId, payload, None);
        var _ := Publish(r, env);
      }
      return Done;
    }

    /** A failed attempt goes back to the queue while attempts and time remain; otherwise the event fails for good. */
    method ReportFailure(id: EventId, message: string, stackTrace: Option<string>, before: seq<Write>,
                         cfg: Option<Config>, logId: string, occurredAt: Time, logsUp: bool, judgedAt: Time, at: Time,
                         tries: Tries, saved: Payloads, env: PublishEnv) returns (outcome: Outcome)
      requires cfg.Some? ==> ValidConfig(cfg.value)
      requires UsableEnv(env) && judgedAt <= at
      requires WellKeyed(ExecAll(events.rows, before))
      modifies events, payloads, errorLogs
      ensures errorLogs.logs == if id in ExecAll(old(events.rows), before) && cfg.Some? && logsUp
                                then old(errorLogs.logs) + [ErrorLog(logId, id, message, stackTrace, occurredAt)]
                                else old(errorLogs.logs)
      ensures var r0 := ExecAll(old(events.rows), before);
              if id !in r0 then outcome == EventMissing && events.rows == r0 && payloads.data == old(payloads.data)
              else if cfg.None? then outcome == ConfigMissing && events.rows == r0
                  && payloads.data == old(payloads.data)
              else
                var e := r0[id];
                var cause := if RetriesRemain(e, judgedAt) then Switch(cfg.value, judgedAt, at) else Failure(judgedAt);
                var cmd := CommandOf(e, cause);
                var r1 := AfterTries(r0, cmd, tries);
                if !FirstTryHits(r0, cmd, tries) then
                  outcome == RetriesExceeded && events.rows == r1 && payloads.data == old(payloads.data)
                else
                  outcome == Done &&
                  Tables(events.rows, payloads.data) ==
                  if cause.Failure? && e.onFailEventType.Some? then
                    var data := old(payloads.data) + saved;
                    Published(Tables(r1, data), OnFailRequest(e, if id in data then data[id] else ""), env)
                  else Tables(r1, old(payloads.data))
      ensures var r0 := ExecAll(old(events.rows), before);
              id in r0 && cfg.Some? ==>
                var e, mid := r0[id], ExecAll(r0, tries.others(0));
                id in mid &&
                if mid[id] != e then outcome == RetriesExceeded
                else if e.attemptsLeft > 1
                        && e.eventProcessingDueDate.Some? && judgedAt < e.eventProcessingDueDate.value then
                  outcome == Done && payloads.data == old(payloads.data) &&
                  events.rows == mid[id := Rescheduled(e, cfg.value, at, tries.stamps(0))]
                else
                  outcome == Done &&
                  AfterFailure(e, mid[id := FailedForGood(e, tries.stamps(0))], old(payloads.data), saved, env,
                               Tables(events.rows, payloads.data))
    {
      events.Interfere(before);
      var loaded := events.Load(id);
      if loaded.None? {
        return EventMissing;
      }
      var e := loaded.value;
      if cfg.None? {
        return ConfigMissing;
      }
      var _ := errorLogs.Save(ErrorLog(logId, id, message, stackTrace, occurredAt), logsUp);
      var hasRetriesLeft := e.attemptsLeft > 1;
      var isNotExpired := e.eventProcessingDueDate.Some? && judgedAt < e.eventProcessingDueDate.value;
      if hasRetriesLeft && isNotExpired {
        outcome := ScheduleNextAttempt(e, cfg.value, judgedAt, at, tries);
      } else {
        outcome := MarkAsTerminallyFailed(e, judgedAt, tries, saved, env);
      }
    }
  }
}
