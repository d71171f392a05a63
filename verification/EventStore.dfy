/** The event table: one atomic insert and six versioned updates. */
module EventStore {
  import opened EventModel

  type Rows = map<EventId, Event>

  /** The row an INSERT writes: version 1, no failed attempts, both timestamps taken by the database. */
  function InsertedRow(cmd: InitiationCommand, stamp: Time): Event {
    Event(cmd.id, cmd.eventType, cmd.flowType, cmd.flowId, cmd.status, 1,
          cmd.attemptsLeft, 0,
          StoredOptTime(cmd.attemptScheduledAt), StoredOptTime(cmd.attemptDueDate),
          StoredOptTime(cmd.eventProcessingDueDate),
          cmd.onFailEventType, cmd.scheduleState, stamp, stamp)
  }

  /** The row an UPDATE leaves behind. */
  function UpdatedRow(row: Event, cmd: Command, stamp: Time): Event {
    var next := row.(version := row.version + 1, updatedAt := stamp);
    match cmd
    case MarkAsDispatched(_, _, sched) =>
      next.(status := Dispatched, scheduleState := sched)
    case AcquirePermit(_, _, attemptDue, eventDue, sched) =>
      next.(status := BeingProcessed, attemptDueDate := StoredOptTime(attemptDue),
            eventProcessingDueDate := StoredOptTime(eventDue), scheduleState := sched)
    case SwitchToNextAttempt(_, _, left, failed, scheduledAt, attemptDue, sched) =>
      next.(status := AwaitingProcessing, attemptsLeft := left, attemptsFailed := failed,
            attemptScheduledAt := StoredOptTime(scheduledAt), attemptDueDate := StoredOptTime(attemptDue),
            scheduleState := sched)
    case MarkAsSucceeded(_, _) =>
      next.(status := Processed, scheduleState := Inactive)
    case MarkAsFailed(_, _, failed) =>
      next.(status := Failed, attemptsFailed := failed, scheduleState := Inactive)
    case ActivateSuspended(_, _, sched) =>
      next.(status := AwaitingProcessing, scheduleState := sched)
  }

  /** Each statement by its columns: what the row holds afterwards, and that every other column stays. */
  lemma UpdateColumns(row: Event, cmd: Command, stamp: Time)
    ensures var n := UpdatedRow(row, cmd, stamp);
            var e := row.(version := row.version + 1, updatedAt := stamp);
            match cmd
            case MarkAsDispatched(_, _, sched) => n == e.(status := Dispatched, scheduleState := sched)
            case AcquirePermit(_, _, attemptDue, eventDue, sched) =>
              n == e.(status := BeingProcessed, scheduleState := sched,
                      attemptDueDate := StoredOptTime(attemptDue), eventProcessingDueDate := StoredOptTime(eventDue))
            case SwitchToNextAttempt(_, _, left, failed, scheduledAt, attemptDue, sched) =>
              n == e.(status := AwaitingProcessing, scheduleState := sched,
                      attemptsLeft := left, attemptsFailed := failed,
                      attemptScheduledAt := StoredOptTime(scheduledAt), attemptDueDate := StoredOptTime(attemptDue))
            case MarkAsSucceeded(_, _) => n == e.(status := Processed, scheduleState := Inactive)
            case MarkAsFailed(_, _, failed) =>
              n == e.(status := Failed, scheduleState := Inactive, attemptsFailed := failed)
            case ActivateSuspended(_, _, sched) => n == e.(status := AwaitingProcessing, scheduleState := sched)
  {
  }

  /** The insert by its columns. */
  lemma InsertColumns(cmd: InitiationCommand, stamp: Time)
    ensures var e := InsertedRow(cmd, stamp);
            e.id == cmd.id && e.eventType == cmd.eventType && e.flowType == cmd.flowType && e.flowId == cmd.flowId &&
            e.onFailEventType == cmd.onFailEventType &&
            e.status == cmd.status && e.scheduleState == cmd.scheduleState &&
            e.version == 1 && e.attemptsLeft == cmd.attemptsLeft && e.attemptsFailed == 0 &&
            e.attemptScheduledAt == StoredOptTime(cmd.attemptScheduledAt) &&
            e.attemptDueDate == StoredOptTime(cmd.attemptDueDate) &&
            e.eventProcessingDueDate == StoredOptTime(cmd.eventProcessingDueDate) &&
            e.createdAt == stamp && e.updatedAt == stamp
  {
  }

  datatype Write =
    | Insert(icmd: InitiationCommand, istamp: Time)
    | Update(cmd: Command, stamp: Time)

  /** Does the WHERE clause of the update select a row? */
  predicate Hits(rows: Rows, cmd: Command) {
    cmd.id in rows && rows[cmd.id].version == cmd.version
  }

  function Exec(rows: Rows, w: Write): Rows {
    match w
    case Insert(c, stamp) => if c.id in rows then rows else rows[c.id := InsertedRow(c, stamp)]
    case Update(c, stamp) => if Hits(rows, c) then rows[c.id := UpdatedRow(rows[c.id], c, stamp)] else rows
  }

  function ExecAll(rows: Rows, ws: seq<Write>): Rows
    decreases |ws|
  {
    if ws == [] then rows else ExecAll(Exec(rows, ws[0]), ws[1..])
  }

  lemma {:induction false} ExecAllAppend(rows: Rows, xs: seq<Write>, ys: seq<Write>)
    ensures ExecAll(rows, xs + ys) == ExecAll(ExecAll(rows, xs), ys)
    decreases |xs|
  {
    if xs == [] {
      assert xs + ys == ys;
    } else {
      assert (xs + ys)[1..] == xs[1..] + ys;
      ExecAllAppend(Exec(rows, xs[0]), xs[1..], ys);
    }
  }

  /** No write removes a row, and a row that changes takes a larger version: what every client relies on. */
  lemma {:induction false} VersionsOnlyGrow(rows: Rows, ws: seq<Write>, id: EventId)
    requires id in rows
    ensures var after := ExecAll(rows, ws);
            id in after && after[id].version >= rows[id].version &&
            (after[id].version == rows[id].version ==> after[id] == rows[id])
    decreases |ws|
  {
    if ws == [] {
    } else {
      var mid := Exec(rows, ws[0]);
      assert id in mid && mid[id].version >= rows[id].version;
      VersionsOnlyGrow(mid, ws[1..], id);
    }
  }

  /** What names an event, and its creation time, no write ever changes. */
  lemma {:induction false} NamesSurvive(rows: Rows, ws: seq<Write>, id: EventId)
    requires id in rows
    ensures var after := ExecAll(rows, ws);
            id in after && after[id].id == rows[id].id && after[id].eventType == rows[id].eventType &&
            after[id].flowType == rows[id].flowType && after[id].flowId == rows[id].flowId &&
            after[id].onFailEventType == rows[id].onFailEventType && after[id].createdAt == rows[id].createdAt
    decreases |ws|
  {
    if ws == [] {
    } else {
      NamesSurvive(Exec(rows, ws[0]), ws[1..], id);
    }
  }

  datatype Filter =
    | CreatedBefore(flowType: string, status: Status, createdBefore: Time)
    | ScheduledBefore(flowType: string, scheduleState: ScheduleState, scheduledBefore: Time)

  /** The WHERE clauses of the two queries; a NULL scheduled time is never before anything. */
  predicate Matches(f: Filter, e: Event) {
    match f
    case CreatedBefore(flow, status, t) => e.flowType == flow && e.status == status && e.createdAt <= t
    case ScheduledBefore(flow, sched, t) =>
      e.flowType == flow && e.scheduleState == sched && e.attemptScheduledAt.Some? && e.attemptScheduledAt.value <= t
  }

  /** What SELECT .. LIMIT promises: matching rows, each once, and all of them unless the limit is reached. */
  ghost predicate IsSelection(rows: Rows, f: Filter, limit: nat, result: seq<Event>) {
    && |result| <= limit
    && (forall i :: 0 <= i < |result| ==>
          result[i].id in rows && rows[result[i].id] == result[i] && Matches(f, result[i]))
    && (forall i, j :: 0 <= i < j < |result| ==> result[i].id != result[j].id)
    && (|result| < limit ==> forall id :: id in rows && Matches(f, rows[id]) ==> rows[id] in result)
  }

  /** Every row is stored under its own identifier. */
  ghost predicate WellKeyed(rows: Rows) {
    forall id :: id in rows ==> rows[id].id == id
  }

  datatype UpdateResult = Updated | RaceCondition(id: EventId, expectedVersion: int)

  class EventRepository {
    var rows: Rows

    constructor ()
      ensures rows == map[]
    {
      rows := map[];
    }

    /** INSERT IGNORE: the first command for an identifier wins, later ones change nothing. */
    method Create(cmd: InitiationCommand, stamp: Time) returns (created: bool)
      modifies this
      ensures created <==> cmd.id !in old(rows)
      ensures rows == Exec(old(rows), Insert(cmd, stamp))
    {
      if cmd.id in rows {
        return false;
      }
      rows := rows[cmd.id := InsertedRow(cmd, stamp)];
      return true;
    }

    method Load(id: EventId) returns (e: Option<Event>)
      ensures e == if id in rows then Some(rows[id]) else None
    {
      if id in rows {
        return Some(rows[id]);
      }
      return None;
    }

    /** Any rows the filter admits, in any order, up to the limit. */
    method Find(f: Filter, limit: nat) returns (result: seq<Event>)
      requires WellKeyed(rows)
      ensures IsSelection(rows, f, limit, result)
    {
      result := [];
      var todo := rows.Keys;
      while todo != {} && |result| < limit
        invariant todo <= rows.Keys
        invariant |result| <= limit
        invariant forall i :: 0 <= i < |result| ==>
                    result[i].id in rows && result[i].id !in todo && rows[result[i].id] == result[i]
                        && Matches(f, result[i])
        invariant forall i, j :: 0 <= i < j < |result| ==> result[i].id != result[j].id
        invariant forall id :: id in rows && id !in todo && Matches(f, rows[id]) ==> rows[id] in result
        decreases todo
      {
        var id :| id in todo;
        todo := todo - {id};
        if Matches(f, rows[id]) {
          result := result + [rows[id]];
        }
      }
    }

    /** The six UPDATE statements. Each selects by identifier and version, never by status. */
    method ExecOptimistic(cmd: Command, stamp: Time) returns (result: UpdateResult)
      modifies this
      ensures rows == Exec(old(rows), Update(cmd, stamp))
      ensures result == if Hits(old(rows), cmd) then Updated else RaceCondition(cmd.id, cmd.version)
    {
      if cmd.id !in rows || rows[cmd.id].version != cmd.version {
        return RaceCondition(cmd.id, cmd.version);
      }
      var row := rows[cmd.id];
      row := row.(version := row.version + 1, updatedAt := stamp);
      match cmd {
        case MarkAsDispatched(_, _, sched) =>
          row := row.(status := Dispatched, scheduleState := sched);
        case AcquirePermit(_, _, attemptDue, eventDue, sched) =>
          row := row.(status := BeingProcessed, scheduleState := sched);
          row := row.(attemptDueDate := StoredOptTime(attemptDue));
          row := row.(eventProcessingDueDate := StoredOptTime(eventDue));
        case SwitchToNextAttempt(_, _, left, failed, scheduledAt, attemptDue, sched) =>
          row := row.(status := AwaitingProcessing, scheduleState := sched);
          row := row.(attemptsLeft := left, attemptsFailed := failed);
          row := row.(attemptScheduledAt := StoredOptTime(scheduledAt));
          row := row.(attemptDueDate := StoredOptTime(attemptDue));
        case MarkAsSucceeded(_, _) =>
          row := row.(status := Processed, scheduleState := Inactive);
        case MarkAsFailed(_, _, failed) =>
          row := row.(status := Failed, attemptsFailed := failed, scheduleState := Inactive);
        case ActivateSuspended(_, _, sched) =>
          row := row.(status := AwaitingProcessing, scheduleState := sched);
      }
      rows := rows[cmd.id := row];
      return Updated;
    }

    /** Writes other clients commit between two accesses of this one. */
    method Interfere(others: seq<Write>)
      modifies this
      ensures rows == ExecAll(old(rows), others)
    {
      ghost var start := rows;
      for i := 0 to |others|
        invariant ExecAll(rows, others[i..]) == ExecAll(start, others)
      {
        assert others[i..][0] == others[i] && others[i..][1..] == others[i + 1..];
        rows := Exec(rows, others[i]);
      }
    }
  }
}
