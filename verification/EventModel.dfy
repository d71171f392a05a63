/** The entities of the engine: events, commands, configurations and the times they carry. */
module EventModel {

  datatype Option<+T> = None | Some(value: T)

  type EventId = string

  /** Instants and durations are whole nanoseconds. */
  type Time = int

  const SECOND: int := 1_000_000_000
  const MILLISECOND: int := 1_000_000

  /** A DATETIME(3) column keeps milliseconds; the database rounds half up on the way in. */
  function StoredTime(t: Time): (r: Time)
    ensures r % MILLISECOND == 0
    ensures 2 * (r - t) <= MILLISECOND && 2 * (t - r) <= MILLISECOND
    ensures t % MILLISECOND == 0 ==> r == t
  {
    (t + MILLISECOND / 2) / MILLISECOND * MILLISECOND
  }

  function StoredOptTime(t: Option<Time>): Option<Time> {
    match t
    case None => None
    case Some(v) => Some(StoredTime(v))
  }

  datatype Status =
    | AwaitingProcessing | Dispatched | BeingProcessed
    | Processed | Failed | Canceled | Suspended

  datatype ScheduleState = Active | Inactive | Sleeping

  datatype Event = Event(
    id: EventId,
    eventType: string,
    flowType: string,
    flowId: string,
    status: Status,
    version: int,
    attemptsLeft: int,
    attemptsFailed: int,
    attemptScheduledAt: Option<Time>,
    attemptDueDate: Option<Time>,
    eventProcessingDueDate: Option<Time>,
    onFailEventType: Option<string>,
    scheduleState: ScheduleState,
    createdAt: Time,
    updatedAt: Time)

  datatype AttemptConfig = AttemptConfig(attemptNumber: int, delayBeforeAttemptSeconds: int)

  datatype Config = Config(
    eventType: string,
    flowType: string,
    maxAttempts: int,
    eventLifespanSeconds: int,
    isSuspended: bool,
    attempts: seq<AttemptConfig>)

  /** With no attempts allowed the engine divides by zero, so every configuration allows one. */
  predicate ValidConfig(cfg: Config) {
    cfg.maxAttempts >= 1
  }

  datatype InitiationCommand = InitiationCommand(
    id: EventId,
    eventType: string,
    flowType: string,
    flowId: string,
    onFailEventType: Option<string>,
    status: Status,
    attemptsLeft: int,
    attemptScheduledAt: Option<Time>,
    attemptDueDate: Option<Time>,
    eventProcessingDueDate: Option<Time>,
    scheduleState: ScheduleState)

  /** The versioned commands, one constructor per UPDATE statement of the event table. */
  datatype Command =
    | MarkAsDispatched(id: EventId, version: int, scheduleState: ScheduleState)
    | AcquirePermit(id: EventId, version: int, attemptDueDate: Option<Time>,
                    eventProcessingDueDate: Option<Time>, scheduleState: ScheduleState)
    | SwitchToNextAttempt(id: EventId, version: int, attemptsLeft: int, attemptsFailed: int,
                          attemptScheduledAt: Option<Time>, attemptDueDate: Option<Time>,
                          scheduleState: ScheduleState)
    | MarkAsSucceeded(id: EventId, version: int)
    | MarkAsFailed(id: EventId, version: int, attemptsFailed: int)
    | ActivateSuspended(id: EventId, version: int, scheduleState: ScheduleState)

  datatype PublishRequest = PublishRequest(
    eventType: string, flowType: string, flowId: string, payload: string, onFailEventType: Option<string>)

  datatype Spinoff = Spinoff(eventType: string, payload: string, onFailEventType: Option<string>)

  /** What the broker carries: the JSON body of a dispatched event and its headers. */
  datatype Message = Message(
    subject: string, id: EventId, eventType: string, flowType: string, flowId: string,
    ttlSeconds: int, publishedAt: Time, payload: string)

  /** Division of 64-bit integers in Go: the quotient is truncated toward zero. */
  function GoDiv(a: int, b: int): (q: int)
    requires b > 0
    ensures a >= 0 ==> b * q <= a < b * (q + 1)
    ensures a < 0 ==> b * (q - 1) < a <= b * q
  {
    if a >= 0 then a / b else -((-a) / b)
  }

  /** The share of an event's lifespan given to one attempt. */
  function AttemptLifespan(cfg: Config): int
    requires ValidConfig(cfg)
  {
    GoDiv(cfg.eventLifespanSeconds, cfg.maxAttempts) * SECOND
  }

  function ToLowerChar(c: char): (r: char)
    ensures 'A' <= c <= 'Z' ==> 'a' <= r <= 'z' && r - 'a' == c - 'A'
    ensures !('A' <= c <= 'Z') ==> r == c
  {
    if 'A' <= c <= 'Z' then c - 'A' + 'a' else c
  }

  function ToLower(s: string): (r: string)
    ensures |r| == |s|
    ensures forall i :: 0 <= i < |s| ==> r[i] == ToLowerChar(s[i])
  {
    if s == [] then [] else [ToLowerChar(s[0])] + ToLower(s[1..])
  }

  /** Identifiers of operations never run out. */
  lemma FreshNat(used: set<nat>) returns (n: nat)
    ensures n !in used && forall m :: m in used ==> m < n
  {
    if used == {} {
      n := 0;
    } else {
      var m :| m in used;
      var k := FreshNat(used - {m});
      n := if k <= m then m + 1 else k;
      assert forall x :: x in used ==> x == m || x in used - {m};
    }
  }
}
