/**
 * The life of one event as a sequence of writes, each decided from the row just before it.
 * Protocol proves that every interleaving of stale readers produces such a sequence;
 * here are the laws every such sequence obeys.
 */
module Lineage {
  import opened EventModel
  import opened EventStore
  import opened Decisions

  datatype Entry = Entry(cause: Cause, row: Event, stamp: Time, at: Time)

  type History = seq<Entry>

  predicate IsOrigin(id: EventId, e: Entry) {
    && e.cause.Publication?
    && ValidConfig(e.cause.cfg)
    && e.cause.at <= e.at
    && e.row == InsertedRow(InitiationFor(id, e.cause.request, e.cause.cfg, e.cause.at), e.stamp)
  }

  /** The second write was decided from the row of the first, at an instant between the two commits. */
  predicate Follows(p: Entry, n: Entry) {
    && Permissible(p.row, n.cause)
    && n.row == UpdatedRow(p.row, CommandOf(p.row, n.cause), n.stamp)
    && p.at <= JudgedAt(n.cause, n.at) <= n.at
    && (n.cause.Switch? ==> n.cause.at <= n.at)
  }

  ghost predicate IsLineage(id: EventId, h: History) {
    && |h| > 0
    && IsOrigin(id, h[0])
    && forall k :: 0 < k < |h| ==> Follows(h[k - 1], h[k])
  }

  function Last(h: History): Entry
    requires |h| > 0
  {
    h[|h| - 1]
  }

  /** How often each operation committed; awaiting counts the dispatches out of AWAITING_PROCESSING. */
  datatype Tally = Tally(dispatches: nat, awaiting: nat, permits: nat, switches: nat,
                         successes: nat, failures: nat, reactivations: nat)

  const NO_COMMITS := Tally(0, 0, 0, 0, 0, 0, 0)

  function Counted(t: Tally, before: Event, c: Cause): Tally {
    match c
    case Publication(_, _, _) => t
    case Dispatch(_, _) =>
      t.(dispatches := t.dispatches + 1,
         awaiting := if before.status == AwaitingProcessing then t.awaiting + 1 else t.awaiting)
    case Permit(_, _, _) => t.(permits := t.permits + 1)
    case Switch(_, _, _) => t.(switches := t.switches + 1)
    case Success(_) => t.(successes := t.successes + 1)
    case Failure(_) => t.(failures := t.failures + 1)
    case Reactivation => t.(reactivations := t.reactivations + 1)
  }

  function TallyOf(h: History): Tally
    decreases |h|
  {
    if |h| <= 1 then NO_COMMITS
    else Counted(TallyOf(h[..|h| - 1]), h[|h| - 2].row, Last(h).cause)
  }

  /** The attempts granted at publication. */
  function Budget(h: History): int
    requires |h| > 0 && h[0].cause.Publication?
  {
    h[0].cause.cfg.maxAttempts
  }

  predicate PermitSpent(s: Status) {
    s == BeingProcessed || s == Processed || s == Failed
  }

  function Bit(b: bool): nat { if b then 1 else 0 }

  predicate Balanced(m: int, t: Tally, e: Event) {
    && e.attemptsLeft == m - t.switches >= 1
    && e.attemptsFailed == t.switches + t.failures
    && e.version == 1 + t.dispatches + t.permits + t.switches + t.successes + t.failures + t.reactivations
  }

  predicate Bounded(t: Tally, e: Event) {
    && t.permits <= t.switches + Bit(PermitSpent(e.status))
    && t.reactivations + Bit(e.scheduleState == Sleeping) <= t.switches + 1
    && t.awaiting + Bit(e.status == AwaitingProcessing) <= t.switches + 1
  }

  predicate StatesAgree(e: Event) {
    && (e.scheduleState == Sleeping ==> e.status == AwaitingProcessing)
    && (e.scheduleState == Active ==> e.status == AwaitingProcessing || e.status == Dispatched)
    && (e.scheduleState == Inactive <==> PermitSpent(e.status))
    && e.status != Suspended && e.status != Canceled
  }

  /** What no update rewrites. */
  predicate SameIdentity(a: Event, b: Event) {
    && a.id == b.id && a.eventType == b.eventType && a.flowType == b.flowType && a.flowId == b.flowId
    && a.onFailEventType == b.onFailEventType && a.createdAt == b.createdAt
    && a.eventProcessingDueDate == b.eventProcessingDueDate
  }

  /** Once a failure was counted the event is final, and no failure report can find retries from then on. */
  predicate FailureHolds(t: Tally, e: Entry) {
    t.failures > 0 ==> (e.row.status == Failed || e.row.status == Processed) && !RetriesRemain(e.row, e.at)
  }

  ghost predicate Lawful(id: EventId, h: History)
    requires |h| > 0 && h[0].cause.Publication?
  {
    var e := Last(h).row;
    var t := TallyOf(h);
    && e.id == id
    && e.version == |h|
    && Balanced(Budget(h), t, e)
    && Bounded(t, e)
    && StatesAgree(e)
    && SameIdentity(h[0].row, e)
    && e.eventProcessingDueDate.Some?
    && StoredOptTime(e.eventProcessingDueDate) == e.eventProcessingDueDate
    && h[0].at <= Last(h).at
    && FailureHolds(t, Last(h))
  }

  lemma PrefixIsLineage(id: EventId, h: History, n: nat)
    requires IsLineage(id, h) && 0 < n <= |h|
    ensures IsLineage(id, h[..n])
  {
    forall k | 0 < k < n ensures Follows(h[..n][k - 1], h[..n][k]) {
      assert Follows(h[k - 1], h[k]);
    }
  }

  lemma StepKeepsBalance(m: int, t: Tally, p: Entry, n: Entry)
    requires Follows(p, n) && Balanced(m, t, p.row)
    ensures n.row.version == p.row.version + 1 && Balanced(m, Counted(t, p.row, n.cause), n.row)
  {
  }

  lemma StepKeepsBounds(t: Tally, p: Entry, n: Entry)
    requires Follows(p, n) && Bounded(t, p.row) && StatesAgree(p.row)
    ensures Bounded(Counted(t, p.row, n.cause), n.row) && StatesAgree(n.row)
  {
  }

  lemma StepKeepsIdentity(p: Entry, n: Entry)
    requires Follows(p, n) && StoredOptTime(p.row.eventProcessingDueDate) == p.row.eventProcessingDueDate
    ensures SameIdentity(p.row, n.row)
  {
  }

  lemma StepKeepsFinality(t: Tally, p: Entry, n: Entry)
    requires Follows(p, n) && StatesAgree(p.row) && SameIdentity(p.row, n.row)
    requires FailureHolds(t, p)
    ensures FailureHolds(Counted(t, p.row, n.cause), n)
  {
  }

  /** One step of the induction below, without the history. */
  lemma StepKeepsLaws(m: int, t: Tally, p: Entry, n: Entry)
    requires Follows(p, n)
    requires Balanced(m, t, p.row) && Bounded(t, p.row) && StatesAgree(p.row) && FailureHolds(t, p)
    requires StoredOptTime(p.row.eventProcessingDueDate) == p.row.eventProcessingDueDate
    ensures n.row.version == p.row.version + 1 && SameIdentity(p.row, n.row)
    ensures var t' := Counted(t, p.row, n.cause);
            Balanced(m, t', n.row) && Bounded(t', n.row) && StatesAgree(n.row) && FailureHolds(t', n)
  {
    StepKeepsBalance(m, t, p, n);
    StepKeepsBounds(t, p, n);
    StepKeepsIdentity(p, n);
    StepKeepsFinality(t, p, n);
  }

  /** Every law at once, by induction on the writes. */
  lemma {:induction false} LineageIsLawful(id: EventId, h: History)
    requires IsLineage(id, h)
    ensures Lawful(id, h)
    decreases |h|
  {
    if |h| == 1 {
      assert TallyOf(h) == NO_COMMITS;
    } else {
      var n := |h| - 1;
      PrefixIsLineage(id, h, n);
      LineageIsLawful(id, h[..n]);
      assert Last(h[..n]) == h[n - 1];
      assert Follows(h[n - 1], h[n]);
      StepKeepsLaws(Budget(h), TallyOf(h[..n]), h[n - 1], h[n]);
    }
  }

  /** The laws hold of the row after every write, not only after the last. */
  lemma LawfulThroughout(id: EventId, h: History, n: nat)
    requires IsLineage(id, h) && 0 < n <= |h|
    ensures IsLineage(id, h[..n]) && Lawful(id, h[..n]) && Last(h[..n]) == h[n - 1] && Budget(h[..n]) == Budget(h)
  {
    PrefixIsLineage(id, h, n);
    LineageIsLawful(id, h[..n]);
  }

  /** attempts_left, attempts_failed and version are exactly accounted for by the committed operations. */
  lemma {:induction false} Conservation(id: EventId, h: History)
    requires IsLineage(id, h)
    ensures var e, t := Last(h).row, TallyOf(h);
            e.attemptsLeft == Budget(h) - t.switches &&
            e.attemptsFailed == t.switches + t.failures &&
            e.version == 1 + t.dispatches + t.permits + t.switches + t.successes + t.failures + t.reactivations
  {
    LineageIsLawful(id, h);
  }

  /** However often an event is dispatched or reported, the attempts granted at publication bound the rest. */
  lemma WorkIsBounded(id: EventId, h: History)
    requires IsLineage(id, h)
    ensures var t, m := TallyOf(h), Budget(h);
            t.permits <= m && t.switches <= m - 1 && t.reactivations <= m && t.awaiting <= m
  {
    LineageIsLawful(id, h);
  }

  /** The status and the schedule state agree after every write. */
  lemma StatesAlwaysAgree(id: EventId, h: History, k: nat)
    requires IsLineage(id, h) && k < |h|
    ensures StatesAgree(h[k].row)
  {
    LawfulThroughout(id, h, k + 1);
  }

  lemma {:induction false} FailuresNeverForgotten(id: EventId, h: History, i: nat)
    requires IsLineage(id, h) && i < |h| && h[i].cause.Failure?
    ensures TallyOf(h).failures > 0
    decreases |h|
  {
    if i < |h| - 1 {
      PrefixIsLineage(id, h, |h| - 1);
      FailuresNeverForgotten(id, h[..|h| - 1], i);
    }
  }

  /** Once an event was marked as failed, only further terminal reports ever commit for it. */
  lemma FailureIsFinal(id: EventId, h: History, i: nat, j: nat)
    requires IsLineage(id, h) && i < j < |h| && h[i].cause.Failure?
    ensures h[j].cause.Success? || h[j].cause.Failure?
    ensures h[j].row.status == Processed || h[j].row.status == Failed
  {
    LawfulThroughout(id, h, j);
    FailuresNeverForgotten(id, h[..j], i);
    assert Follows(h[j - 1], h[j]);
  }

  /** What a switch writes, in terms of the failures counted before it. */
  lemma SwitchEffect(p: Entry, n: Entry)
    requires Follows(p, n) && n.cause.Switch?
    ensures var delay := RetryDelay(n.cause.cfg.attempts, p.row.attemptsFailed + 2);
            n.row.attemptScheduledAt == Some(StoredTime(n.cause.at + delay * SECOND)) &&
            n.row.scheduleState == StateForDelay(delay)
  {
  }

  lemma SwitchIsCounted(h: History)
    requires |h| > 1 && Last(h).cause.Switch?
    ensures TallyOf(h).switches == TallyOf(h[..|h| - 1]).switches + 1
  {
  }

  /** No terminal failure precedes a switch, so the failed attempts are exactly the earlier switches. */
  lemma SwitchesCountFailures(id: EventId, h: History, j: nat)
    requires IsLineage(id, h) && 0 < j < |h| && h[j].cause.Switch?
    ensures Follows(h[j - 1], h[j])
    ensures h[j - 1].row.attemptsFailed + 1 == TallyOf(h[..j + 1]).switches
  {
    assert Follows(h[j - 1], h[j]);
    LawfulThroughout(id, h, j);
    var g := h[..j + 1];
    assert Last(g) == h[j] && g[..j] == h[..j];
    SwitchIsCounted(g);
  }

  /** The k-th switch takes the delay configured for attempt k + 1, and sleeps exactly when it is positive. */
  lemma SwitchUsesItsOwnDelay(id: EventId, h: History, j: nat)
    requires IsLineage(id, h) && 0 < j < |h| && h[j].cause.Switch?
    ensures var k := TallyOf(h[..j + 1]).switches;
            var delay := RetryDelay(h[j].cause.cfg.attempts, k + 1);
            h[j].row.attemptScheduledAt == Some(StoredTime(h[j].cause.at + delay * SECOND)) &&
            (h[j].row.scheduleState == Sleeping <==> delay > 0) &&
            (h[j].row.scheduleState == Active <==> delay <= 0)
  {
    SwitchesCountFailures(id, h, j);
    SwitchEffect(h[j - 1], h[j]);
  }

  /** The configuration and the clock reading the entry that starts an attempt was scheduled with. */
  function AttemptsOf(c: Cause): seq<AttemptConfig>
    requires c.Publication? || c.Switch?
  {
    c.cfg.attempts
  }

  /** Where an attempt starts: at the publication, and at every switch. */
  predicate StartsAttempt(h: History, j: nat)
    requires j < |h|
  {
    h[j].cause.Publication? || h[j].cause.Switch?
  }

  /** The number of the attempt under way after the j-th write: one more than the switches so far. */
  function AttemptNumber(h: History, j: nat): int
    requires j < |h|
  {
    1 + TallyOf(h[..j + 1]).switches
  }

  /**
   * Every attempt of an event waits for the delay configured under its own number, and sleeps exactly when that is
   * positive; for the first attempt this needs a list that begins with number 1, or no list.
   */
  lemma EveryAttemptUsesItsOwnDelay(id: EventId, h: History, j: nat)
    requires IsLineage(id, h) && j < |h| && StartsAttempt(h, j)
    requires j == 0 ==> FirstEntryIsNumberedOne(h[0].cause.cfg.attempts)
    ensures var delay := RetryDelay(AttemptsOf(h[j].cause), AttemptNumber(h, j));
            h[j].row.attemptScheduledAt == Some(StoredTime(h[j].cause.at + delay * SECOND)) &&
            (h[j].row.scheduleState == Sleeping <==> delay > 0)
  {
    if j == 0 {
      FirstDelayIsItsOwnIff(NumbersOf(h[0].cause.cfg.attempts));
      assert TallyOf(h[..1]) == NO_COMMITS;
    } else {
      assert Follows(h[j - 1], h[j]);
      SwitchUsesItsOwnDelay(id, h, j);
    }
  }

  // ---------------------------------------------------------------------------------------------
  // What each write leaves behind
  // ---------------------------------------------------------------------------------------------

  /** The status after a write is the one its operation stands for. */
  lemma StatusFollowsCause(id: EventId, h: History, k: nat)
    requires IsLineage(id, h) && k < |h|
    ensures match h[k].cause
            case Publication(_, _, _) => h[k].row.status == AwaitingProcessing
            case Dispatch(_, _) => h[k].row.status == Dispatched
            case Permit(_, _, _) => h[k].row.status == BeingProcessed
            case Switch(_, _, _) => h[k].row.status == AwaitingProcessing
            case Success(_) => h[k].row.status == Processed
            case Failure(_) => h[k].row.status == Failed
            case Reactivation => h[k].row.status == AwaitingProcessing
  {
    if k > 0 {
      assert Follows(h[k - 1], h[k]);
    }
  }

  /** The row a publication creates, in terms of the request, the configuration and the clock it read. */
  lemma PublicationLeaves(id: EventId, h: History)
    requires IsLineage(id, h)
    ensures var c := h[0].cause; c.at <= h[0].at && IsNewRow(h[0].row, id, c.request, c.cfg, c.at, h[0].stamp)
  {
    PublicationIsNewRow(id, h[0].cause.request, h[0].cause.cfg, h[0].cause.at, h[0].stamp);
  }

  /** What one write sets, column by column, and that the rest stays. */
  predicate Leaves(p: Event, n: Event, c: Cause, stamp: Time) {
    var q := p.(version := p.version + 1, updatedAt := stamp);
    match c
    case Publication(_, _, _) => false
    case Dispatch(_, _) => n == q.(status := Dispatched, scheduleState := Active)
    case Permit(cfg, at, _) =>
      cfg.maxAttempts > 0 &&
      var share := GoDiv(cfg.eventLifespanSeconds, cfg.maxAttempts);
      n == q.(status := BeingProcessed, scheduleState := Inactive,
              attemptDueDate := Some(StoredTime(at + share * SECOND)))
    case Switch(cfg, _, at) =>
      cfg.maxAttempts > 0 &&
      var delay := RetryDelay(cfg.attempts, p.attemptsFailed + 2);
      var share := GoDiv(cfg.eventLifespanSeconds, cfg.maxAttempts);
      n == q.(status := AwaitingProcessing, scheduleState := if delay > 0 then Sleeping else Active,
              attemptsLeft := p.attemptsLeft - 1, attemptsFailed := p.attemptsFailed + 1,
              attemptScheduledAt := Some(StoredTime(at + delay * SECOND)),
              attemptDueDate := Some(StoredTime(at + delay * SECOND + share * SECOND)))
    case Success(_) => n == q.(status := Processed, scheduleState := Inactive)
    case Failure(_) => n == q.(status := Failed, scheduleState := Inactive, attemptsFailed := p.attemptsFailed + 1)
    case Reactivation => n == q.(status := AwaitingProcessing, scheduleState := Active)
  }

  /** The clock readings of an operation lie between the commit of its snapshot and its own. */
  predicate ReadsInTime(from: Time, c: Cause, to: Time) {
    match c
    case Permit(_, at, _) => from <= at <= to
    case Switch(_, judgedAt, at) => from <= judgedAt <= at <= to
    case Failure(judgedAt) => from <= judgedAt <= to
    case _ => from <= to
  }

  lemma StepLeaves(p: Event, c: Cause, stamp: Time)
    requires Permissible(p, c) && StoredOptTime(p.eventProcessingDueDate) == p.eventProcessingDueDate
    ensures Leaves(p, UpdatedRow(p, CommandOf(p, c), stamp), c, stamp)
  {
  }

  /** The counters and the due date before the k-th write, from the publication and the switches since. */
  lemma RowBefore(id: EventId, h: History, k: nat)
    requires IsLineage(id, h) && 0 < k < |h|
    ensures Follows(h[k - 1], h[k])
    ensures var p := h[k - 1].row;
            p.attemptsLeft == h[0].cause.cfg.maxAttempts - TallyOf(h[..k]).switches &&
            p.eventProcessingDueDate == h[0].row.eventProcessingDueDate &&
            StoredOptTime(p.eventProcessingDueDate) == p.eventProcessingDueDate
  {
    assert Follows(h[k - 1], h[k]);
    LawfulThroughout(id, h, k);
  }

  /** Every later write of every history: what it leaves of the row before it, on clock readings taken in between. */
  lemma WriteLeaves(id: EventId, h: History, k: nat)
    requires IsLineage(id, h) && 0 < k < |h|
    ensures Leaves(h[k - 1].row, h[k].row, h[k].cause, h[k].stamp)
    ensures ReadsInTime(h[k - 1].at, h[k].cause, h[k].at)
  {
    RowBefore(id, h, k);
    StepLeaves(h[k - 1].row, h[k].cause, h[k].stamp);
  }

  /** What a failure report found in its snapshot. */
  lemma ReportJudges(p: Event, c: Cause)
    requires Permissible(p, c)
    ensures c.Switch? ==>
              p.attemptsLeft > 1 && p.eventProcessingDueDate.Some? && c.judgedAt < p.eventProcessingDueDate.value
    ensures c.Failure? ==>
              p.attemptsLeft <= 1 || p.eventProcessingDueDate.None? || c.judgedAt >= p.eventProcessingDueDate.value
  {
  }

  /**
   * The deadline decides: a failure report schedules another attempt only before the event's due date, fixed at its
   * publication, and with more than one attempt left; it is terminal only for want of one or the other.
   */
  lemma DeadlineDecides(id: EventId, h: History, k: nat)
    requires IsLineage(id, h) && 0 < k < |h|
    ensures var due := StoredTime(h[0].cause.at + h[0].cause.cfg.eventLifespanSeconds * SECOND);
            var left := h[0].cause.cfg.maxAttempts - TallyOf(h[..k]).switches;
            (h[k].cause.Switch? ==> left > 1 && h[k].cause.judgedAt < due) &&
            (h[k].cause.Failure? ==> left <= 1 || h[k].cause.judgedAt >= due)
  {
    RowBefore(id, h, k);
    PublicationLeaves(id, h);
    ReportJudges(h[k - 1].row, h[k].cause);
  }

  /** No dispatch was decided on a suspended configuration. */
  lemma DispatchWasActive(id: EventId, h: History, k: nat)
    requires IsLineage(id, h) && 0 < k < |h| && h[k].cause.Dispatch?
    ensures !h[k].cause.cfg.isSuspended
  {
    assert Follows(h[k - 1], h[k]);
  }
}
