/**
 * The bounds are reached. Runs of a single client, one operation at a time and all at one instant: a ride whose every
 * attempt but the last of each event fails, and an event that is dispatched over and over.
 */
module Tightness {
  import opened EventModel
  import opened EventStore
  import opened Decisions
  import opened Lineage
  import opened Protocol
  import opened RideTable
  import opened Rides
  import Dispatcher

  // ---------------------------------------------------------------------------------------------
  // Single steps of the one operation
  // ---------------------------------------------------------------------------------------------

  function Solo(s: State, o: Option<Op>): State {
    s.(ops := match o case None => map[] case Some(v) => map[0 := v])
  }

  predicate Steps(s: State, step: Step, t: State) {
    Enabled(s, step) && AdapterStep(s, step) && !step.StartPublish? && t == Apply(s, step)
  }

  /** A row to work on: stored under its own identifier, in the queue, with time left. */
  predicate Ready(s: State, id: EventId) {
    && id in s.rows && id in s.history && s.history[id] != [] && s.rows[id].id == id
    && s.rows[id].createdAt <= s.now && NotExpired(s.rows[id], s.now)
    && StoredOptTime(s.rows[id].eventProcessingDueDate) == s.rows[id].eventProcessingDueDate
  }

  predicate Usable(cfg: Config) {
    ValidConfig(cfg) && !cfg.isSuspended
  }

  lemma FindStep(s: State, id: EventId, finder: Finder)
    requires s.ops == map[] && id in s.rows && Matches(FilterOf(finder, s.rows[id].flowType, s.now), s.rows[id])
    ensures Steps(s, FindEvent(0, id, finder), Solo(s, Some(Found(finder, s.rows[id]))))
  {
  }

  lemma DecideStep(s: State, o: Op, cfg: Config, next: Op)
    requires s.ops == map[0 := o] && (o.Found? || o.Loaded?) && ValidConfig(cfg) && Decided(o, cfg, s.now) == Some(next)
    ensures Steps(s, Decide(0, cfg), Solo(s, Some(next)))
  {
  }

  /** The state after the operation's update committed. */
  function Committed(s: State, c: Cause, e: Event): State
    requires Permissible(e, c) && e.id in s.history
  {
    var n := NewEntry(Committing(c, e), 0, s.now);
    Solo(s.(rows := s.rows[e.id := n.row], history := s.history[e.id := s.history[e.id] + [n]]), AfterCommit(c, e))
  }

  lemma CommitStep(s: State, c: Cause, e: Event)
    requires s.ops == map[0 := Committing(c, e)] && Permissible(e, c) && e.id in s.rows && s.rows[e.id] == e
    requires e.id in s.history
    ensures Steps(s, Attempt(0, 0), Committed(s, c, e))
  {
    CommandTargetsSnapshot(e, c);
    var o := AfterCommit(c, e);
    assert WithOp(s.ops, 0, o) == Solo(s, o).ops;
  }

  lemma PayloadStep(s: State, e: Event)
    requires s.ops == map[0 := Sending(e, None)]
    ensures Steps(s, LoadSendPayload(0), Solo(s, Some(Sending(e, Some(PayloadOr(s, e.id, "{}"))))))
  {
  }

  lemma SendStep(s: State, e: Event, body: string) returns (m: Message)
    requires s.ops == map[0 := Sending(e, Some(body))] && NotExpired(e, s.now)
    ensures Steps(s, Send(0, s.now), Solo(s.(sent := s.sent + [Sent(m, e.version, s.now)]), None))
    ensures m.id == e.id && m.subject == SUBJECT_PREFIX + ToLower(e.eventType)
  {
    m := Dispatcher.Dispatched(e, body, s.now, s.now).msg;
  }

  lemma PermitLoadStep(s: State, m: Message)
    requires s.ops == map[] && m.id in s.rows && Received(s, m)
    ensures Steps(s, LoadForPermit(0, m), Solo(s, Some(Loaded(ForPermit(m), s.rows[m.id]))))
  {
  }

  lemma HeldStep(s: State, m: Message, purpose: Purpose)
    requires s.ops == map[0 := Holding(m)] && m.id in s.rows
    requires purpose == ForFailure || purpose == ForSuccess(AdapterSpinoffs(m))
    ensures Steps(s, ReportHeld(0, purpose), Solo(s, Some(Loaded(purpose, s.rows[m.id]))))
  {
  }

  lemma ScheduleStep(s: State, cfg: Config, at: Time, e: Event)
    requires s.ops == map[0 := Retrying(cfg, at, e)]
    ensures Steps(s, Schedule(0), Solo(s, Some(Committing(Switch(cfg, at, s.now), e))))
  {
  }

  lemma GiveUpStep(s: State, o: Op)
    requires s.ops == map[0 := o]
    ensures Steps(s, GiveUp(0), Solo(s, None))
  {
  }

  lemma BuildStep(s: State, r: PublishRequest, id: EventId, cfg: Config)
    requires s.ops == map[0 := Publishing([r])] && ValidConfig(cfg) && Seeded(r.eventType, cfg)
    ensures Steps(s, BuildPublish(0, id, cfg), Solo(s, Some(Initiating(id, r, cfg, s.now, []))))
  {
    assert [r][1..] == [];
  }

  /** The state after the operation inserted a new row. */
  function Created(s: State, id: EventId, r: PublishRequest, cfg: Config): State
    requires ValidConfig(cfg)
  {
    var n := FirstEntry(Initiating(id, r, cfg, s.now, []), 0, s.now);
    Solo(s.(rows := s.rows[id := n.row], history := s.history[id := [n]]), Some(Inserted(id, r.payload, [])))
  }

  lemma InsertStep(s: State, id: EventId, r: PublishRequest, cfg: Config)
    requires s.ops == map[0 := Initiating(id, r, cfg, s.now, [])] && id !in s.rows && ValidConfig(cfg)
    ensures Steps(s, InsertRow(0, 0), Created(s, id, r, cfg))
  {
  }

  // ---------------------------------------------------------------------------------------------
  // Runs of such steps
  // ---------------------------------------------------------------------------------------------

  lemma Then(f: Flow, s: State, step: Step, m: State, steps: seq<Step>, t: State)
    requires Steps(s, step, m) && RideRun(f, true, m, steps, t)
    ensures RideRun(f, true, s, [step] + steps, t)
  {
    assert ([step] + steps)[1..] == steps;
  }

  lemma {:induction false} Append(f: Flow, s: State, xs: seq<Step>, m: State, ys: seq<Step>, t: State)
    requires RideRun(f, true, s, xs, m) && RideRun(f, true, m, ys, t)
    ensures RideRun(f, true, s, xs + ys, t)
    decreases |xs|
  {
    if xs == [] {
      assert xs + ys == ys;
    } else {
      assert (xs + ys)[1..] == xs[1..] + ys;
      Append(f, Apply(s, xs[0]), xs[1..], m, ys, t);
    }
  }

  lemma Two(f: Flow, s: State, x1: Step, s1: State, x2: Step, t: State) returns (steps: seq<Step>)
    requires Steps(s, x1, s1) && Steps(s1, x2, t)
    ensures RideRun(f, true, s, steps, t)
  {
    Then(f, s1, x2, t, [], t);
    Then(f, s, x1, s1, [x2], t);
    steps := [x1] + [x2];
  }

  lemma Three(f: Flow, s: State, x1: Step, s1: State, x2: Step, s2: State, x3: Step, t: State)
      returns (steps: seq<Step>)
    requires Steps(s, x1, s1) && Steps(s1, x2, s2) && Steps(s2, x3, t)
    ensures RideRun(f, true, s, steps, t)
  {
    var rest := Two(f, s1, x2, s2, x3, t);
    Then(f, s, x1, s1, rest, t);
    steps := [x1] + rest;
  }

  /** Find, decide, commit: the dispatch of an event, up to the committed update. */
  lemma DispatchRun(f: Flow, s: State, id: EventId, finder: Finder, cfg: Config) returns (steps: seq<Step>, t: State)
    requires s.ops == map[] && Ready(s, id) && Usable(cfg) && finder != ExpiredSuspendedFinder
    requires Matches(FilterOf(finder, s.rows[id].flowType, s.now), s.rows[id])
    ensures RideRun(f, true, s, steps, t) && t == Committed(s, Dispatch(finder, cfg), s.rows[id])
  {
    var e := s.rows[id];
    var s1, s2 := Solo(s, Some(Found(finder, e))), Solo(s, Some(Committing(Dispatch(finder, cfg), e)));
    t := Committed(s, Dispatch(finder, cfg), e);
    FindStep(s, id, finder);
    DecideStep(s1, Found(finder, e), cfg, Committing(Dispatch(finder, cfg), e));
    CommitStep(s2, Dispatch(finder, cfg), e);
    steps := Three(f, s, FindEvent(0, id, finder), s1, Decide(0, cfg), s2, Attempt(0, 0), t);
  }

  lemma SendRun(f: Flow, s: State, e: Event) returns (steps: seq<Step>, t: State, m: Message)
    requires s.ops == map[0 := Sending(e, None)] && NotExpired(e, s.now)
    ensures RideRun(f, true, s, steps, t) && t == Solo(s.(sent := s.sent + [Sent(m, e.version, s.now)]), None)
    ensures m.id == e.id && m.subject == SUBJECT_PREFIX + ToLower(e.eventType)
  {
    var body := PayloadOr(s, e.id, "{}");
    var s1 := Solo(s, Some(Sending(e, Some(body))));
    PayloadStep(s, e);
    m := SendStep(s1, e, body);
    t := Solo(s.(sent := s.sent + [Sent(m, e.version, s.now)]), None);
    steps := Two(f, s, LoadSendPayload(0), s1, Send(0, s.now), t);
  }

  lemma PermitRun(f: Flow, s: State, m: Message, cfg: Config) returns (steps: seq<Step>, t: State)
    requires s.ops == map[] && Ready(s, m.id) && Usable(cfg) && Received(s, m) && s.rows[m.id].status == Dispatched
    ensures RideRun(f, true, s, steps, t) && t == Committed(s, Permit(cfg, s.now, m), s.rows[m.id])
  {
    var e, c := s.rows[m.id], Permit(cfg, s.now, m);
    var s1, s2 := Solo(s, Some(Loaded(ForPermit(m), e))), Solo(s, Some(Committing(c, e)));
    t := Committed(s, c, e);
    PermitLoadStep(s, m);
    DecideStep(s1, Loaded(ForPermit(m), e), cfg, Committing(c, e));
    CommitStep(s2, c, e);
    steps := Three(f, s, LoadForPermit(0, m), s1, Decide(0, cfg), s2, Attempt(0, 0), t);
  }

  lemma FailRun(f: Flow, s: State, m: Message, cfg: Config) returns (steps: seq<Step>, t: State)
    requires s.ops == map[0 := Holding(m)] && Ready(s, m.id) && ValidConfig(cfg) && RetriesRemain(s.rows[m.id], s.now)
    ensures RideRun(f, true, s, steps, t) && t == Committed(s, Switch(cfg, s.now, s.now), s.rows[m.id])
  {
    var e, c := s.rows[m.id], Switch(cfg, s.now, s.now);
    var s1, s2 := Solo(s, Some(Loaded(ForFailure, e))), Solo(s, Some(Retrying(cfg, s.now, e)));
    var s3 := Solo(s, Some(Committing(c, e)));
    t := Committed(s, c, e);
    HeldStep(s, m, ForFailure);
    DecideStep(s1, Loaded(ForFailure, e), cfg, Retrying(cfg, s.now, e));
    ScheduleStep(s2, cfg, s.now, e);
    CommitStep(s3, c, e);
    steps := Three(f, s1, Decide(0, cfg), s2, Schedule(0), s3, Attempt(0, 0), t);
    Then(f, s, ReportHeld(0, ForFailure), s1, steps, t);
    steps := [ReportHeld(0, ForFailure)] + steps;
  }

  lemma SucceedRun(f: Flow, s: State, m: Message, cfg: Config) returns (steps: seq<Step>, t: State)
    requires s.ops == map[0 := Holding(m)] && Ready(s, m.id) && ValidConfig(cfg)
    ensures RideRun(f, true, s, steps, t) && t == Committed(s, Success(AdapterSpinoffs(m)), s.rows[m.id])
  {
    var e, p, c := s.rows[m.id], ForSuccess(AdapterSpinoffs(m)), Success(AdapterSpinoffs(m));
    var s1, s2 := Solo(s, Some(Loaded(p, e))), Solo(s, Some(Committing(c, e)));
    t := Committed(s, c, e);
    HeldStep(s, m, p);
    DecideStep(s1, Loaded(p, e), cfg, Committing(c, e));
    CommitStep(s2, c, e);
    steps := Three(f, s, ReportHeld(0, p), s1, Decide(0, cfg), s2, Attempt(0, 0), t);
  }

  // ---------------------------------------------------------------------------------------------
  // One attempt
  // ---------------------------------------------------------------------------------------------

  function PermitsOf(s: State, id: EventId): nat
    requires id in s.history
  {
    TallyOf(s.history[id]).permits
  }

  /** Nothing but this event changed, and it is still the same event. */
  predicate Only(s: State, t: State, id: EventId) {
    && Ready(s, id) && Ready(t, id) && t.now == s.now && SameIdentity(s.rows[id], t.rows[id])
    && t.rows == s.rows[id := t.rows[id]] && t.history == s.history[id := t.history[id]]
    && s.history[id] <= t.history[id]
  }

  lemma OnlyTwice(s: State, m: State, t: State, id: EventId)
    requires Only(s, m, id) && Only(m, t, id)
    ensures Only(s, t, id)
  {
  }

  lemma TallyGrows(h: History, n: Entry)
    requires h != []
    ensures TallyOf(h + [n]) == Counted(TallyOf(h), Last(h).row, n.cause)
  {
    assert (h + [n])[..|h|] == h;
  }

  lemma UpdateKeepsIdentity(e: Event, c: Cause, now: Time)
    requires Permissible(e, c) && StoredOptTime(e.eventProcessingDueDate) == e.eventProcessingDueDate
    ensures var n := NewEntry(Committing(c, e), 0, now);
            SameIdentity(e, n.row) && n.cause == c &&
            n.row.attemptsLeft == if c.Switch? then e.attemptsLeft - 1 else e.attemptsLeft
  {
  }

  lemma CommittedOnly(s: State, c: Cause, e: Event)
    requires Ready(s, e.id) && s.rows[e.id] == e && Permissible(e, c)
    ensures var t := Committed(s, c, e);
            Only(s, t, e.id) && t.rows[e.id] == NewEntry(Committing(c, e), 0, s.now).row &&
            t.rows[e.id].attemptsLeft == (if c.Switch? then e.attemptsLeft - 1 else e.attemptsLeft) &&
            TallyOf(t.history[e.id]) == Counted(TallyOf(s.history[e.id]), Last(s.history[e.id]).row, c)
  {
    UpdateKeepsIdentity(e, c, s.now);
    TallyGrows(s.history[e.id], NewEntry(Committing(c, e), 0, s.now));
  }

  /** From the queue to the broker. */
  lemma SentRun(f: Flow, s: State, id: EventId, cfg: Config) returns (steps: seq<Step>, t: State, m: Message)
    requires s.ops == map[] && Ready(s, id) && s.rows[id].status == AwaitingProcessing && Usable(cfg)
    ensures RideRun(f, true, s, steps, t) && Only(s, t, id) && t.ops == map[] && t.rows[id].status == Dispatched
    ensures m.id == id && m.subject == SUBJECT_PREFIX + ToLower(t.rows[id].eventType) && Received(t, m)
    ensures t.rows[id].attemptsLeft == s.rows[id].attemptsLeft && PermitsOf(t, id) == PermitsOf(s, id)
    ensures TallyOf(t.history[id]).switches == TallyOf(s.history[id]).switches
  {
    var xs, s1 := DispatchRun(f, s, id, PendingFinder, cfg);
    CommittedOnly(s, Dispatch(PendingFinder, cfg), s.rows[id]);
    var ys;
    ys, t, m := SendRun(f, s1, s.rows[id]);
    assert t.sent[|t.sent| - 1].msg == m;
    Append(f, s, xs, s1, ys, t);
    steps := xs + ys;
  }

  /** From the queue to the permit. */
  lemma GrantRun(f: Flow, s: State, id: EventId, cfg: Config) returns (steps: seq<Step>, t: State, m: Message)
    requires s.ops == map[] && Ready(s, id) && s.rows[id].status == AwaitingProcessing && Usable(cfg)
    ensures RideRun(f, true, s, steps, t) && Only(s, t, id) && t.ops == map[0 := Holding(m)]
    ensures m.id == id && m.subject == SUBJECT_PREFIX + ToLower(t.rows[id].eventType)
    ensures t.rows[id].attemptsLeft == s.rows[id].attemptsLeft && PermitsOf(t, id) == PermitsOf(s, id) + 1
    ensures TallyOf(t.history[id]).switches == TallyOf(s.history[id]).switches
  {
    var xs, mid;
    xs, mid, m := SentRun(f, s, id, cfg);
    var ys;
    ys, t := PermitRun(f, mid, m, cfg);
    CommittedOnly(mid, Permit(cfg, mid.now, m), mid.rows[id]);
    OnlyTwice(s, mid, t, id);
    Append(f, s, xs, mid, ys, t);
    steps := xs + ys;
  }

  lemma FailedAttempt(f: Flow, s: State, id: EventId, cfg: Config) returns (steps: seq<Step>, t: State)
    requires s.ops == map[] && Ready(s, id) && s.rows[id].status == AwaitingProcessing && Usable(cfg)
    requires s.rows[id].attemptsLeft > 1
    ensures RideRun(f, true, s, steps, t) && Only(s, t, id) && t.ops == map[] && t.rows[id].status == AwaitingProcessing
    ensures t.rows[id].attemptsLeft == s.rows[id].attemptsLeft - 1 && PermitsOf(t, id) == PermitsOf(s, id) + 1
    ensures TallyOf(t.history[id]).switches == TallyOf(s.history[id]).switches + 1
  {
    var xs, m, msg := GrantRun(f, s, id, cfg);
    var ys;
    ys, t := FailRun(f, m, msg, cfg);
    CommittedOnly(m, Switch(cfg, m.now, m.now), m.rows[id]);
    OnlyTwice(s, m, t, id);
    Append(f, s, xs, m, ys, t);
    steps := xs + ys;
  }

  lemma LastAttempt(f: Flow, s: State, id: EventId, cfg: Config) returns (steps: seq<Step>, t: State, m: Message)
    requires s.ops == map[] && Ready(s, id) && s.rows[id].status == AwaitingProcessing && Usable(cfg)
    ensures RideRun(f, true, s, steps, t) && Only(s, t, id)
    ensures t.ops == map[0 := Publishing(SpinoffRequests(t.rows[id], AdapterSpinoffs(m)))]
    ensures m.subject == SUBJECT_PREFIX + ToLower(t.rows[id].eventType) && PermitsOf(t, id) == PermitsOf(s, id) + 1
    ensures TallyOf(t.history[id]).switches == TallyOf(s.history[id]).switches
  {
    var xs, mid;
    xs, mid, m := GrantRun(f, s, id, cfg);
    var ys;
    ys, t := SucceedRun(f, mid, m, cfg);
    CommittedOnly(mid, Success(AdapterSpinoffs(m)), mid.rows[id]);
    OnlyTwice(s, mid, t, id);
    SameFlowSpinoffs(mid.rows[id], t.rows[id], AdapterSpinoffs(m));
    Append(f, s, xs, mid, ys, t);
    steps := xs + ys;
  }

  lemma {:induction false} SameFlowSpinoffs(a: Event, b: Event, spinoffs: seq<Spinoff>)
    requires a.flowId == b.flowId && a.flowType == b.flowType
    ensures SpinoffRequests(a, spinoffs) == SpinoffRequests(b, spinoffs)
    decreases |spinoffs|
  {
    if spinoffs == [] {
    } else {
      SameFlowSpinoffs(a, b, spinoffs[1..]);
    }
  }

  /** Every attempt an event has left is used: all but the last fail. */
  lemma {:induction false} UseUp(f: Flow, s: State, id: EventId, cfg: Config)
      returns (steps: seq<Step>, t: State, m: Message)
    requires s.ops == map[] && Ready(s, id) && s.rows[id].status == AwaitingProcessing && Usable(cfg)
    requires s.rows[id].attemptsLeft >= 1
    ensures RideRun(f, true, s, steps, t) && Only(s, t, id)
    ensures t.ops == map[0 := Publishing(SpinoffRequests(t.rows[id], AdapterSpinoffs(m)))]
    ensures m.subject == SUBJECT_PREFIX + ToLower(t.rows[id].eventType)
    ensures PermitsOf(t, id) == PermitsOf(s, id) + s.rows[id].attemptsLeft
    ensures TallyOf(t.history[id]).switches == TallyOf(s.history[id]).switches + s.rows[id].attemptsLeft - 1
    decreases s.rows[id].attemptsLeft
  {
    if s.rows[id].attemptsLeft == 1 {
      steps, t, m := LastAttempt(f, s, id, cfg);
    } else {
      var xs, mid := FailedAttempt(f, s, id, cfg);
      var ys;
      ys, t, m := UseUp(f, mid, id, cfg);
      OnlyTwice(s, mid, t, id);
      Append(f, s, xs, mid, ys, t);
      steps := xs + ys;
    }
  }

  // ---------------------------------------------------------------------------------------------
  // Publication
  // ---------------------------------------------------------------------------------------------

  function Plain(eventType: string, flowType: string, attempts: int): Config {
    Config(eventType, flowType, attempts, 600, false, [])
  }

  /** A row just published: in the queue, with all its attempts. */
  predicate JustPublished(s: State, id: EventId, r: PublishRequest, attempts: int) {
    && Ready(s, id) && s.rows[id].status == AwaitingProcessing && s.rows[id].attemptsLeft == attempts
    && s.rows[id].eventType == r.eventType && s.rows[id].flowId == r.flowId && s.rows[id].flowType == r.flowType
    && s.rows[id].scheduleState == Active && s.rows[id].attemptScheduledAt == Some(0)
    && |s.history[id]| == 1 && s.history[id][0].cause.Publication? && Budget(s.history[id]) == attempts
  }

  lemma CreatedIsPublished(s: State, id: EventId, r: PublishRequest, attempts: int)
    requires s.now == 0 && id !in s.rows && attempts >= 1
    ensures var t := Created(s, id, r, Plain(r.eventType, r.flowType, attempts)); JustPublished(t, id, r, attempts)
  {
  }

  lemma PublishRun(f: Flow, s: State, r: PublishRequest, id: EventId, attempts: int)
      returns (steps: seq<Step>, t: State)
    requires s.ops == map[0 := Publishing([r])] && s.now == 0 && id !in s.rows && attempts >= 1
    requires Seeded(r.eventType, Plain(r.eventType, r.flowType, attempts))
    ensures RideRun(f, true, s, steps, t) && t.ops == map[] && t.now == 0 && JustPublished(t, id, r, attempts)
    ensures t.rows == s.rows[id := t.rows[id]] && t.history == s.history[id := t.history[id]]
  {
    var cfg := Plain(r.eventType, r.flowType, attempts);
    var s1, s2 := Solo(s, Some(Initiating(id, r, cfg, s.now, []))), Created(s, id, r, cfg);
    t := Solo(s2, None);
    BuildStep(s, r, id, cfg);
    InsertStep(s1, id, r, cfg);
    GiveUpStep(s2, Inserted(id, r.payload, []));
    CreatedIsPublished(s, id, r, attempts);
    steps := Three(f, s, BuildPublish(0, id, cfg), s1, InsertRow(0, 0), s2, GiveUp(0), t);
  }

  /** Identifiers never run out. */
  lemma FreshId(used: set<EventId>) returns (id: EventId)
    ensures id !in used && forall x :: x in used ==> |x| < |id|
  {
    if used == {} {
      id := "e";
    } else {
      var x :| x in used;
      var k := FreshId(used - {x});
      id := k + x + "e";
      assert forall y :: y in used ==> y == x || y in used - {x};
    }
  }

  // ---------------------------------------------------------------------------------------------
  // A ride with every attempt used
  // ---------------------------------------------------------------------------------------------

  /** The ride has come to the last of these events: the ones before have used all their seeded attempts. */
  predicate RideAt(f: Flow, s: State, ids: seq<EventId>) {
    && 0 < |ids| <= 6 && s.ops == map[] && s.now == 0 && EventsOf(s.rows, f, ids)
    && (forall i :: 0 <= i < |ids| ==> ids[i] in s.history)
    && (forall i :: 0 <= i < |ids| - 1 ==> PermitsOf(s, ids[i]) == SEEDED_ATTEMPTS[i])
    && var r, id := |ids| - 1, ids[|ids| - 1];
       Ready(s, id) && s.rows[id].status == AwaitingProcessing && RankOf(s.rows[id].eventType) == r
       && s.rows[id].flowType == f.flowType && s.rows[id].attemptsLeft == SEEDED_ATTEMPTS[r] && PermitsOf(s, id) == 0
  }

  /** All of these events have used their seeded attempts. */
  predicate AllUsed(s: State, ids: seq<EventId>) {
    |ids| <= 6 && forall i :: 0 <= i < |ids| ==> ids[i] in s.history && PermitsOf(s, ids[i]) == SEEDED_ATTEMPTS[i]
  }

  lemma LastJoinsUsed(f: Flow, s: State, t: State, ids: seq<EventId>)
    requires RideAt(f, s, ids) && Only(s, t, ids[|ids| - 1])
    requires PermitsOf(t, ids[|ids| - 1]) == SEEDED_ATTEMPTS[|ids| - 1]
    ensures AllUsed(t, ids) && EventsOf(t.rows, f, ids)
  {
    forall i | 0 <= i < |ids| - 1 ensures ids[i] in t.history && PermitsOf(t, ids[i]) == SEEDED_ATTEMPTS[i] {
      assert ids[i] != ids[|ids| - 1];
    }
  }

  lemma LastIsReady(f: Flow, s: State, ids: seq<EventId>)
    requires RideAt(f, s, ids)
    ensures var id := ids[|ids| - 1];
            s.ops == map[] && Ready(s, id) && s.rows[id].status == AwaitingProcessing &&
            RankOf(s.rows[id].eventType) == |ids| - 1 && s.rows[id].flowType == f.flowType
                && s.rows[id].flowId == f.id &&
            s.rows[id].attemptsLeft == SEEDED_ATTEMPTS[|ids| - 1] >= 1 && PermitsOf(s, id) == 0
  {
  }

  /** What holds of an event on this place of the chain once its success is reported. */
  predicate SpinsOff(f: Flow, t: State, id: EventId, r: int, m: Message) {
    && id in t.rows && RankOf(t.rows[id].eventType) == r && t.rows[id].flowType == f.flowType
       && t.rows[id].flowId == f.id
    && t.ops == map[0 := Publishing(SpinoffRequests(t.rows[id], AdapterSpinoffs(m)))]
    && m.subject == SUBJECT_PREFIX + ToLower(t.rows[id].eventType)
  }

  lemma PlaceUsed(f: Flow, s: State, id: EventId, r: nat) returns (steps: seq<Step>, t: State, m: Message)
    requires r < 6 && s.ops == map[] && Ready(s, id) && s.rows[id].status == AwaitingProcessing
    requires RankOf(s.rows[id].eventType) == r && s.rows[id].flowType == f.flowType && s.rows[id].flowId == f.id
    requires s.rows[id].attemptsLeft == SEEDED_ATTEMPTS[r] >= 1 && PermitsOf(s, id) == 0
    ensures RideRun(f, true, s, steps, t) && Only(s, t, id) && PermitsOf(t, id) == SEEDED_ATTEMPTS[r]
    ensures SpinsOff(f, t, id, r, m)
  {
    steps, t, m := UseUp(f, s, id, Plain("", "", 1));
  }

  /** The last event uses its attempts too. */
  lemma LastEventUsed(f: Flow, s: State, ids: seq<EventId>) returns (steps: seq<Step>, t: State, m: Message)
    requires RideAt(f, s, ids)
    ensures RideRun(f, true, s, steps, t) && t.now == 0 && EventsOf(t.rows, f, ids) && AllUsed(t, ids)
    ensures SpinsOff(f, t, ids[|ids| - 1], |ids| - 1, m)
  {
    LastIsReady(f, s, ids);
    steps, t, m := PlaceUsed(f, s, ids[|ids| - 1], |ids| - 1);
    LastJoinsUsed(f, s, t, ids);
  }

  lemma NextSpinoff(eventType: string, m: Message, r: nat) returns (sp: Spinoff)
    requires r < 5 && RankOf(eventType) == r && m.subject == SUBJECT_PREFIX + ToLower(eventType)
    ensures AdapterSpinoffs(m) == [sp] && RankOf(sp.eventType) == r + 1
  {
    ChainAdvances(eventType);
    SpinoffsFollowTheTable(m, eventType);
    NoRankForEmpty();
    sp := Spinoff(NextEvent(ToLower(eventType)), m.payload, None);
  }

  lemma NoRankForEmpty()
    ensures RankOf("") == -1
  {
    forall i | 0 <= i < 6 ensures RIDE_TYPES[i] != "" {
      assert |RIDE_TYPES[i]| > 1;
    }
  }

  lemma NextRequest(e: Event, m: Message, r: nat) returns (q: PublishRequest)
    requires r < 5 && RankOf(e.eventType) == r && m.subject == SUBJECT_PREFIX + ToLower(e.eventType)
    ensures SpinoffRequests(e, AdapterSpinoffs(m)) == [q]
    ensures RankOf(q.eventType) == r + 1 && q.flowId == e.flowId && q.flowType == e.flowType
  {
    var sp := NextSpinoff(e.eventType, m, r);
    OneSpinoff(e, [sp]);
    q := PublishRequest(sp.eventType, e.flowType, e.flowId, sp.payload, sp.onFailEventType);
  }

  lemma NewEventJoins(f: Flow, mid: State, t: State, ids: seq<EventId>, id: EventId, q: PublishRequest)
    requires 0 < |ids| < 6 && EventsOf(mid.rows, f, ids) && AllUsed(mid, ids)
    requires id !in mid.rows && t.ops == map[] && t.now == 0
    requires JustPublished(t, id, q, SEEDED_ATTEMPTS[|ids|]) && RankOf(q.eventType) == |ids|
    requires q.flowId == f.id && q.flowType == f.flowType
    requires t.rows == mid.rows[id := t.rows[id]] && t.history == mid.history[id := t.history[id]]
    ensures RideAt(f, t, ids + [id])
  {
    var all := ids + [id];
    forall i | 0 <= i < |ids| ensures all[i] in t.history && PermitsOf(t, all[i]) == SEEDED_ATTEMPTS[i] {
      assert all[i] == ids[i] && ids[i] != id;
    }
    assert TallyOf(t.history[id]) == NO_COMMITS;
  }

  lemma SpinoffPublished(f: Flow, s: State, ids: seq<EventId>, q: PublishRequest)
      returns (steps: seq<Step>, t: State, id: EventId)
    requires 0 < |ids| < 6 && EventsOf(s.rows, f, ids) && AllUsed(s, ids) && s.now == 0
    requires s.ops == map[0 := Publishing([q])] && RankOf(q.eventType) == |ids|
    requires q.flowId == f.id && q.flowType == f.flowType
    ensures RideRun(f, true, s, steps, t) && RideAt(f, t, ids + [id])
  {
    id := FreshId(s.rows.Keys);
    steps, t := PublishRun(f, s, q, id, SEEDED_ATTEMPTS[|ids|]);
    NewEventJoins(f, s, t, ids, id, q);
  }

  /** The ride moves one place on. */
  lemma RideMovesOn(f: Flow, s: State, ids: seq<EventId>) returns (steps: seq<Step>, t: State, id: EventId)
    requires RideAt(f, s, ids) && |ids| < 6
    ensures RideRun(f, true, s, steps, t) && RideAt(f, t, ids + [id])
  {
    var xs, mid, m := LastEventUsed(f, s, ids);
    var q := NextRequest(mid.rows[ids[|ids| - 1]], m, |ids| - 1);
    var ys;
    ys, t, id := SpinoffPublished(f, mid, ids, q);
    Append(f, s, xs, mid, ys, t);
    steps := xs + ys;
  }

  function SeededFrom(r: nat): int
    requires r <= 6
    decreases 6 - r
  {
    if r == 6 then 0 else SEEDED_ATTEMPTS[r] + SeededFrom(r + 1)
  }

  lemma {:induction false} TotalOfSeeded(h: Histories, ids: seq<EventId>, r: nat)
    requires r <= 6 && |ids| == 6 - r
    requires forall i :: 0 <= i < |ids| ==> ids[i] in h && TallyOf(h[ids[i]]).permits == SEEDED_ATTEMPTS[r + i]
    ensures TotalPermits(h, ids) == SeededFrom(r)
    decreases |ids|
  {
    if ids == [] {
    } else {
      assert forall i :: 0 <= i < |ids[1..]| ==> ids[1..][i] == ids[i + 1];
      TotalOfSeeded(h, ids[1..], r + 1);
    }
  }

  lemma SeededSum()
    ensures SeededFrom(0) == 13
  {
    assert SeededFrom(3) == 1 + SeededFrom(4) && SeededFrom(4) == 1 + SeededFrom(5)
        && SeededFrom(5) == 3 + SeededFrom(6);
  }

  lemma {:induction false} RideToTheEnd(f: Flow, s: State, ids: seq<EventId>)
      returns (steps: seq<Step>, t: State, all: seq<EventId>)
    requires RideAt(f, s, ids)
    ensures RideRun(f, true, s, steps, t) && EventsOf(t.rows, f, all) && |all| == 6
            && TotalPermits(t.history, all) == 13
    decreases 6 - |ids|
  {
    if |ids| == 6 {
      var m;
      steps, t, m := LastEventUsed(f, s, ids);
      all := ids;
      TotalOfSeeded(t.history, all, 0);
      SeededSum();
    } else {
      var xs, mid, id := RideMovesOn(f, s, ids);
      var ys;
      ys, t, all := RideToTheEnd(f, mid, ids + [id]);
      Append(f, s, xs, mid, ys, t);
      steps := xs + ys;
    }
  }

  lemma RootIsPublished(f: Flow) returns (steps: seq<Step>, s: State)
    ensures RideRun(f, false, Init(0), steps, s) && RideAt(f, s, ["e"])
    ensures steps != [] && OutsidePublish(f, steps[0])
  {
    RankOfType(0);
    var r := PublishRequest(RIDE_TYPES[0], f.flowType, f.id, "p", None);
    var m := Solo(Init(0), Some(Publishing([r])));
    assert m == Apply(Init(0), StartPublish(0, r)) by {
      assert Init(0).ops[0 := Publishing([r])] == m.ops;
    }
    var rest;
    rest, s := PublishRun(f, m, r, "e", SEEDED_ATTEMPTS[0]);
    steps := [StartPublish(0, r)] + rest;
    assert steps[1..] == rest;
    assert TallyOf(s.history["e"]) == NO_COMMITS;
  }

  lemma {:induction false} AppendFirst(f: Flow, started: bool, s: State, xs: seq<Step>, m: State, ys: seq<Step>,
                                       t: State)
    requires RideRun(f, started, s, xs, m) && RideRun(f, true, m, ys, t)
    requires started || exists i :: 0 <= i < |xs| && OutsidePublish(f, xs[i])
    ensures RideRun(f, started, s, xs + ys, t)
    decreases |xs|
  {
    if xs == [] {
      assert xs + ys == ys;
    } else {
      assert (xs + ys)[1..] == xs[1..] + ys;
      if !started && !OutsidePublish(f, xs[0]) {
        var i :| 0 <= i < |xs| && OutsidePublish(f, xs[i]);
        assert xs[1..][i - 1] == xs[i];
      }
      AppendFirst(f, started || OutsidePublish(f, xs[0]), Apply(s, xs[0]), xs[1..], m, ys, t);
    }
  }

  /** The ride bounds are exact: in every flow some ride reaches six events and thirteen permits. */
  lemma RideBoundIsReached(f: Flow) returns (steps: seq<Step>, s: State, ids: seq<EventId>)
    ensures RideRun(f, false, Init(0), steps, s) && EventsOf(s.rows, f, ids)
    ensures |ids| == 6 && TotalPermits(s.history, ids) == 13
  {
    var xs, m := RootIsPublished(f);
    var ys;
    ys, s, ids := RideToTheEnd(f, m, ["e"]);
    AppendFirst(f, false, Init(0), xs, m, ys, s);
    steps := xs + ys;
  }

  // ---------------------------------------------------------------------------------------------
  // One event
  // ---------------------------------------------------------------------------------------------

  lemma {:induction false} RideRunIsRun(f: Flow, started: bool, s: State, steps: seq<Step>, t: State)
    requires RideRun(f, started, s, steps, t)
    ensures Run(s, steps, t)
    decreases |steps|
  {
    if steps == [] {
    } else {
      RideRunIsRun(f, started || OutsidePublish(f, steps[0]), Apply(s, steps[0]), steps[1..], t);
    }
  }

  lemma OutsideTheChain(eventType: string)
    requires |eventType| == 1
    ensures RankOf(eventType) == -1
  {
    forall i | 0 <= i < 6 ensures RIDE_TYPES[i] != eventType {
      assert |RIDE_TYPES[i]| > 1;
    }
  }

  /** Publishing an ordinary event with any number of attempts. */
  lemma EventIsPublished(f: Flow, attempts: int) returns (steps: seq<Step>, s: State)
    requires f.id == "other" && attempts >= 1
    ensures RideRun(f, true, Init(0), steps, s) && s.ops == map[] && s.now == 0
    ensures "e" in s.rows && JustPublished(s, "e", PublishRequest("T", "F", "f", "p", None), attempts)
  {
    var r := PublishRequest("T", "F", "f", "p", None);
    var m := Solo(Init(0), Some(Publishing([r])));
    assert m == Apply(Init(0), StartPublish(0, r)) by {
      assert Init(0).ops[0 := Publishing([r])] == m.ops;
    }
    OutsideTheChain(r.eventType);
    var rest;
    rest, s := PublishRun(f, m, r, "e", attempts);
    assert |r.flowId| != |f.id|;
    steps := [StartPublish(0, r)] + rest;
    assert steps[1..] == rest;
  }

  /** The bounds on permits and switches are exact, for every number of attempts. */
  lemma AttemptBoundIsReached(attempts: int) returns (s: State)
    requires attempts >= 1
    ensures Reachable(s) && "e" in s.history && s.history["e"] != [] && s.history["e"][0].cause.Publication?
    ensures var t := TallyOf(s.history["e"]);
            Budget(s.history["e"]) == attempts && t.permits == attempts && t.switches == attempts - 1
  {
    var f := Flow("other", "");
    var xs, m := EventIsPublished(f, attempts);
    var ys, msg;
    ys, s, msg := UseUp(f, m, "e", Plain("T", "F", attempts));
    Append(f, Init(0), xs, m, ys, s);
    RideRunIsRun(f, true, Init(0), xs + ys, s);
    assert s.history["e"][0] == m.history["e"][0];
  }

  lemma DispatchAgain(f: Flow, s: State, id: EventId, finder: Finder, cfg: Config) returns (steps: seq<Step>, t: State)
    requires s.ops == map[] && Ready(s, id) && Usable(cfg) && finder != ExpiredSuspendedFinder
    requires Matches(FilterOf(finder, s.rows[id].flowType, s.now), s.rows[id])
    ensures RideRun(f, true, s, steps, t) && Only(s, t, id) && t.ops == map[]
    ensures t.rows[id].status == Dispatched && t.rows[id].scheduleState == Active
    ensures t.rows[id].attemptScheduledAt == s.rows[id].attemptScheduledAt
    ensures TallyOf(t.history[id]).dispatches == TallyOf(s.history[id]).dispatches + 1
            && PermitsOf(t, id) == PermitsOf(s, id)
  {
    var xs, m := DispatchRun(f, s, id, finder, cfg);
    CommittedOnly(s, Dispatch(finder, cfg), s.rows[id]);
    t := Solo(m, None);
    GiveUpStep(m, Sending(s.rows[id], None));
    Then(f, m, GiveUp(0), t, [], t);
    Append(f, s, xs, m, [GiveUp(0)], t);
    steps := xs + [GiveUp(0)];
  }

  /** An event that has been dispatched a number of times and can be found again. */
  predicate DispatchedOften(s: State, n: nat) {
    && s.ops == map[] && s.now == 0 && Ready(s, "e") && s.rows["e"].status == Dispatched
    && s.rows["e"].scheduleState == Active && s.rows["e"].attemptScheduledAt == Some(0)
    && TallyOf(s.history["e"]).dispatches == n && PermitsOf(s, "e") == 0
  }

  lemma {:induction false} DispatchOver(f: Flow, n: nat) returns (steps: seq<Step>, s: State)
    requires f.id == "other"
    ensures RideRun(f, true, Init(0), steps, s) && DispatchedOften(s, n + 1)
    decreases n
  {
    var cfg := Plain("T", "F", 1);
    if n == 0 {
      var xs, m := EventIsPublished(f, 1);
      assert TallyOf(m.history["e"]) == NO_COMMITS;
      var ys;
      ys, s := DispatchAgain(f, m, "e", PendingFinder, cfg);
      Append(f, Init(0), xs, m, ys, s);
      steps := xs + ys;
    } else {
      var xs, m := DispatchOver(f, n - 1);
      var ys;
      ys, s := DispatchAgain(f, m, "e", ScheduledFinder, cfg);
      Append(f, Init(0), xs, m, ys, s);
      steps := xs + ys;
    }
  }

  /** Dispatches of a dispatched event have no bound: any number of them commits without a single permit. */
  lemma DispatchesAreUnbounded(n: nat) returns (s: State)
    ensures Reachable(s) && "e" in s.history
    ensures TallyOf(s.history["e"]).dispatches > n && TallyOf(s.history["e"]).permits == 0
  {
    var f := Flow("other", "");
    var steps;
    steps, s := DispatchOver(f, n);
    RideRunIsRun(f, true, Init(0), steps, s);
  }
}
