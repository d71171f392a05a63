/** What the lifecycle service decides from a loaded snapshot, a configuration and the clock. */
module Decisions {
  import opened EventModel
  import opened EventStore

  datatype Finder = PendingFinder | ScheduledFinder | ExpiredSuspendedFinder

  function FilterOf(finder: Finder, flowType: string, now: Time): Filter {
    match finder
    case PendingFinder => CreatedBefore(flowType, AwaitingProcessing, now)
    case ScheduledFinder => ScheduledBefore(flowType, Active, now)
    case ExpiredSuspendedFinder => ScheduledBefore(flowType, Sleeping, now)
  }

  /** The part of a finder's filter that does not depend on the clock or the flow. */
  predicate FoundBy(finder: Finder, e: Event) {
    match finder
    case PendingFinder => e.status == AwaitingProcessing
    case ScheduledFinder => e.scheduleState == Active
    case ExpiredSuspendedFinder => e.scheduleState == Sleeping
  }

  /** Why a row was written: the operation, with the configuration and the clock readings it used. */
  datatype Cause =
    | Publication(request: PublishRequest, cfg: Config, at: Time)
    | Dispatch(finder: Finder, cfg: Config)
    | Permit(cfg: Config, at: Time, msg: Message)
    | Switch(cfg: Config, judgedAt: Time, at: Time)
    | Success(spinoffs: seq<Spinoff>)
    | Failure(judgedAt: Time)
    | Reactivation

  /** Publish: the first entry of the list gives the first delay, whatever its attempt number. */
  function InitialDelay(cfg: Config): int {
    if cfg.attempts == [] then 0 else cfg.attempts[0].delayBeforeAttemptSeconds
  }

  /** The delay of the first entry with the given attempt number, 0 if there is none. */
  function RetryDelay(attempts: seq<AttemptConfig>, number: int): int {
    if attempts == [] then 0
    else if attempts[0].attemptNumber == number then attempts[0].delayBeforeAttemptSeconds
    else RetryDelay(attempts[1..], number)
  }

  function StateForDelay(delay: int): ScheduleState {
    if delay > 0 then Sleeping else Active
  }

  function InitiationFor(id: EventId, r: PublishRequest, cfg: Config, now: Time): InitiationCommand
    requires ValidConfig(cfg)
  {
    var scheduledAt := now + InitialDelay(cfg) * SECOND;
    InitiationCommand(id, r.eventType, r.flowType, r.flowId, r.onFailEventType, AwaitingProcessing,
                      cfg.maxAttempts, Some(scheduledAt), Some(scheduledAt + AttemptLifespan(cfg)),
                      Some(now + cfg.eventLifespanSeconds * SECOND), StateForDelay(InitialDelay(cfg)))
  }

  /** A row just published, column by column: the request's names, the configuration's attempts, delay and lifespan. */
  predicate IsNewRow(e: Event, id: EventId, r: PublishRequest, cfg: Config, at: Time, stamp: Time) {
    && e.id == id && e.eventType == r.eventType && e.flowType == r.flowType && e.flowId == r.flowId
    && e.onFailEventType == r.onFailEventType && e.status == AwaitingProcessing && e.version == 1
    && e.attemptsLeft == cfg.maxAttempts && e.attemptsFailed == 0
    && cfg.maxAttempts > 0
    && var delay := if cfg.attempts == [] then 0 else cfg.attempts[0].delayBeforeAttemptSeconds;
       var share := GoDiv(cfg.eventLifespanSeconds, cfg.maxAttempts);
    && e.scheduleState == (if delay > 0 then Sleeping else Active)
    && e.attemptScheduledAt == Some(StoredTime(at + delay * SECOND))
    && e.attemptDueDate == Some(StoredTime(at + delay * SECOND + share * SECOND))
    && e.eventProcessingDueDate == Some(StoredTime(at + cfg.eventLifespanSeconds * SECOND))
    && e.createdAt == stamp && e.updatedAt == stamp
  }

  lemma PublicationIsNewRow(id: EventId, r: PublishRequest, cfg: Config, at: Time, stamp: Time)
    requires ValidConfig(cfg)
    ensures IsNewRow(InsertedRow(InitiationFor(id, r, cfg, at), stamp), id, r, cfg, at, stamp)
  {
  }

  predicate NotExpired(e: Event, now: Time) {
    e.eventProcessingDueDate.Some? && now < e.eventProcessingDueDate.value
  }

  /** A failure report judged at this instant schedules another attempt; otherwise it is terminal. */
  predicate RetriesRemain(e: Event, now: Time) {
    e.attemptsLeft > 1 && NotExpired(e, now)
  }

  /** The checks an operation makes on its snapshot before it builds a command. Reports check no status. */
  predicate Permissible(e: Event, c: Cause) {
    match c
    case Publication(_, _, _) => false
    case Dispatch(finder, cfg) => finder != ExpiredSuspendedFinder && FoundBy(finder, e) && !cfg.isSuspended
    case Permit(cfg, _, msg) => e.status == Dispatched && ValidConfig(cfg) && msg.id == e.id
    case Switch(cfg, judgedAt, at) => ValidConfig(cfg) && RetriesRemain(e, judgedAt) && judgedAt <= at
    case Success(_) => true
    case Failure(judgedAt) => !RetriesRemain(e, judgedAt)
    case Reactivation => FoundBy(ExpiredSuspendedFinder, e)
  }

  /** The versioned command built from the snapshot. */
  function CommandOf(e: Event, c: Cause): Command
    requires Permissible(e, c)
  {
    match c
    case Dispatch(_, _) => MarkAsDispatched(e.id, e.version, Active)
    case Permit(cfg, at, _) =>
      AcquirePermit(e.id, e.version, Some(at + AttemptLifespan(cfg)), e.eventProcessingDueDate, Inactive)
    case Switch(cfg, _, at) =>
      var delay := RetryDelay(cfg.attempts, e.attemptsFailed + 2);
      var scheduledAt := at + delay * SECOND;
      SwitchToNextAttempt(e.id, e.version, e.attemptsLeft - 1, e.attemptsFailed + 1,
                          Some(scheduledAt), Some(scheduledAt + AttemptLifespan(cfg)), StateForDelay(delay))
    case Success(_) => MarkAsSucceeded(e.id, e.version)
    case Failure(_) => MarkAsFailed(e.id, e.version, e.attemptsFailed + 1)
    case Reactivation => ActivateSuspended(e.id, e.version, Active)
  }

  /** The clock reading a decision rests on, for the operations that read the clock before deciding. */
  function JudgedAt(c: Cause, otherwise: Time): Time {
    match c
    case Permit(_, t, _) => t
    case Switch(_, t, _) => t
    case Failure(t) => t
    case _ => otherwise
  }

  /** The spinoffs of a success become publications in the reporting event's own flow. */
  function SpinoffRequests(e: Event, spinoffs: seq<Spinoff>): (r: seq<PublishRequest>)
    ensures |r| == |spinoffs|
    ensures forall i :: 0 <= i < |r| ==> r[i].flowId == e.flowId && r[i].flowType == e.flowType
    ensures forall i :: 0 <= i < |r| ==> r[i].eventType == spinoffs[i].eventType && r[i].payload == spinoffs[i].payload
                                         && r[i].onFailEventType == spinoffs[i].onFailEventType
  {
    if spinoffs == [] then []
    else [PublishRequest(spinoffs[0].eventType, e.flowType, e.flowId, spinoffs[0].payload, spinoffs[0].onFailEventType)]
         + SpinoffRequests(e, spinoffs[1..])
  }

  /** The publication a terminal failure makes for an event that names an on-fail type. */
  function OnFailRequest(e: Event, payload: string): PublishRequest
    requires e.onFailEventType.Some?
  {
    PublishRequest(e.onFailEventType.value, e.flowType, e.flowId, payload, None)
  }

  lemma {:induction false} RetryDelayIsFirstMatch(attempts: seq<AttemptConfig>, number: int)
    ensures (forall i :: 0 <= i < |attempts| ==> attempts[i].attemptNumber != number) ==>
            RetryDelay(attempts, number) == 0
    ensures forall i :: 0 <= i < |attempts| && attempts[i].attemptNumber == number
              && (forall j :: 0 <= j < i ==> attempts[j].attemptNumber != number)
              ==> RetryDelay(attempts, number) == attempts[i].delayBeforeAttemptSeconds
  {
    if attempts == [] {
    } else {
      RetryDelayIsFirstMatch(attempts[1..], number);
      forall i | 0 < i < |attempts| && attempts[i].attemptNumber == number
        && (forall j :: 0 <= j < i ==> attempts[j].attemptNumber != number)
        ensures RetryDelay(attempts, number) == attempts[i].delayBeforeAttemptSeconds
      {
        assert attempts[1..][i - 1] == attempts[i];
        assert attempts[0].attemptNumber != number;
        assert forall j :: 0 <= j < i - 1 ==> attempts[1..][j] == attempts[j + 1];
      }
    }
  }

  function NumbersOf(attempts: seq<AttemptConfig>): (r: seq<int>)
    ensures |r| == |attempts| && forall i :: 0 <= i < |r| ==> r[i] == attempts[i].attemptNumber
  {
    seq(|attempts|, i requires 0 <= i < |attempts| => attempts[i].attemptNumber)
  }

  /**
   * With these attempt numbers, the first attempt waits for the delay configured for attempt 1, whatever the
   * delays.
   */
  ghost predicate FirstDelayIsItsOwn(numbers: seq<int>) {
    forall cfg: Config :: NumbersOf(cfg.attempts) == numbers ==> InitialDelay(cfg) == RetryDelay(cfg.attempts, 1)
  }

  predicate FirstEntryIsNumberedOne(attempts: seq<AttemptConfig>) {
    attempts == [] || attempts[0].attemptNumber == 1
  }

  lemma {:induction false} NoDelayElsewhere(attempts: seq<AttemptConfig>, number: int)
    requires forall i :: 0 <= i < |attempts| ==> attempts[i].delayBeforeAttemptSeconds == 0
    ensures RetryDelay(attempts, number) == 0
  {
    if attempts == [] {
    } else {
      NoDelayElsewhere(attempts[1..], number);
    }
  }

  /**
   * Publication looks at the first entry only, so this holds exactly when that entry is numbered 1 or there is
   * none.
   */
  lemma FirstDelayIsItsOwnIff(numbers: seq<int>)
    ensures FirstDelayIsItsOwn(numbers) <==> numbers == [] || numbers[0] == 1
  {
    if numbers != [] && numbers[0] != 1 {
      var attempts := seq(|numbers|,
          i requires 0 <= i < |numbers| => AttemptConfig(numbers[i], if i == 0 then 1 else 0));
      var cfg := Config("", "", 1, 0, false, attempts);
      assert NumbersOf(cfg.attempts) == numbers;
      NoDelayElsewhere(attempts[1..], 1);
      assert InitialDelay(cfg) == 1 && RetryDelay(attempts, 1) == 0;
    } else {
      forall cfg: Config | NumbersOf(cfg.attempts) == numbers
        ensures InitialDelay(cfg) == RetryDelay(cfg.attempts, 1)
      {
        assert cfg.attempts != [] ==> cfg.attempts[0].attemptNumber == numbers[0];
      }
    }
  }

  /**
   * Two entries listed out of order: the first attempt waits 5 s though attempt 1 is configured to wait for
   * nothing.
   */
  lemma FirstDelayMayBeAnothers()
    ensures var attempts := [AttemptConfig(2, 5), AttemptConfig(1, 0)];
            InitialDelay(Config("", "", 2, 60, false, attempts)) == 5 && RetryDelay(attempts, 1) == 0
  {
    var attempts := [AttemptConfig(2, 5), AttemptConfig(1, 0)];
    assert attempts[1..] == [AttemptConfig(1, 0)];
  }
}
