/**
 * One ride through the engine: a RIDE_REQUESTED publication, adapters that report what the ride table says,
 * and nothing else published in that flow.
 */
module Rides {
  import opened EventModel
  import opened EventStore
  import opened Decisions
  import opened Lineage
  import opened Protocol
  import opened AdapterContract
  import opened RideTable

  /** The flow under study. */
  datatype Flow = Flow(id: string, flowType: string)

  predicate Received(s: State, m: Message) {
    exists i :: 0 <= i < |s.sent| && s.sent[i].msg == m
  }

  predicate IsRoot(f: Flow, r: PublishRequest) {
    r.eventType == RIDE_TYPES[0] && r.flowType == f.flowType && r.flowId == f.id && r.onFailEventType == None
  }

  predicate Seeded(eventType: string, cfg: Config) {
    RankOf(eventType) >= 0 ==> cfg.maxAttempts == SEEDED_ATTEMPTS[RankOf(eventType)]
  }

  /** The adapter acts on delivered messages, reports by the table, and the seeded attempts are in force. */
  predicate AdapterStep(s: State, step: Step)
    requires Enabled(s, step)
  {
    match step
    case LoadForPermit(_, msg) => Received(s, msg)
    case ReportHeld(op, purpose) => purpose.ForFailure? || purpose == ForSuccess(AdapterSpinoffs(s.ops[op].msg))
    case ReportUnasked(_, _, _) => false
    case BuildPublish(op, _, cfg) => Seeded(s.ops[op].requests[0].eventType, cfg)
    case _ => true
  }

  /** In this flow only the root is ever published from outside, and only once. */
  predicate OutsidePublish(f: Flow, step: Step) {
    step.StartPublish? && step.request.flowId == f.id
  }

  ghost predicate RideRun(f: Flow, started: bool, s: State, steps: seq<Step>, t: State)
    decreases |steps|
  {
    if steps == [] then s == t
    else
      && Enabled(s, steps[0]) && AdapterStep(s, steps[0])
      && (OutsidePublish(f, steps[0]) ==> !started && IsRoot(f, steps[0].request))
      && RideRun(f, started || OutsidePublish(f, steps[0]), Apply(s, steps[0]), steps[1..], t)
  }

  // ---------------------------------------------------------------------------------------------
  // What adapters carry around
  // ---------------------------------------------------------------------------------------------

  predicate ByTheTable(e: Event, spinoffs: seq<Spinoff>) {
    var next := NextEvent(ToLower(e.eventType));
    if next == "" then spinoffs == []
    else |spinoffs| == 1 && spinoffs[0].eventType == next && spinoffs[0].onFailEventType == None
  }

  predicate CarriesOk(s: State, o: Op) {
    match o
    case Holding(msg) => Received(s, msg)
    case Loaded(ForPermit(msg), _) => Received(s, msg)
    case Loaded(ForSuccess(spinoffs), e) => ByTheTable(e, spinoffs)
    case Committing(Permit(_, _, msg), _) => Received(s, msg)
    case Committing(Success(spinoffs), e) => ByTheTable(e, spinoffs)
    case _ => true
  }

  ghost predicate AllCarryOk(s: State) {
    forall op :: op in s.ops ==> CarriesOk(s, s.ops[op])
  }

  lemma ReceivedStays(s: State, t: State, m: Message)
    requires s.sent <= t.sent && Received(s, m)
    ensures Received(t, m)
  {
    var i :| 0 <= i < |s.sent| && s.sent[i].msg == m;
    assert t.sent[i] == s.sent[i];
  }

  /** Every row of an event names the type, flow and on-fail type it was published with. */
  lemma IdentityAlong(s: State, e: Event)
    requires Inv(s) && Known(s.history, e)
    ensures e.id in s.rows && SameIdentity(s.history[e.id][0].row, e) && SameIdentity(e, s.rows[e.id])
  {
    assert HistoryOk(s.rows, s.history, s.now, e.id);
    LawfulThroughout(e.id, s.history[e.id], e.version);
    LineageIsLawful(e.id, s.history[e.id]);
  }

  lemma TypeAlong(id: EventId, h: History, k: nat)
    requires IsLineage(id, h) && k < |h|
    ensures h[k].row.eventType == Last(h).row.eventType
  {
    LawfulThroughout(id, h, k + 1);
    LineageIsLawful(id, h);
  }

  lemma SentSubject(h: Histories, m: Sent)
    requires SentOk(h, m)
    ensures m.msg.subject == SUBJECT_PREFIX + ToLower(h[m.msg.id][m.version - 1].row.eventType)
  {
  }

  /** A delivered message names its event's type, lowered, in its subject. */
  lemma SubjectNamesType(s: State, m: Message)
    requires Inv(s) && Received(s, m) && m.id in s.rows
    ensures m.subject == SUBJECT_PREFIX + ToLower(s.rows[m.id].eventType)
  {
    var i :| 0 <= i < |s.sent| && s.sent[i].msg == m;
    assert SentOk(s.history, s.sent[i]);
    SentSubject(s.history, s.sent[i]);
    assert HistoryOk(s.rows, s.history, s.now, m.id);
    TypeAlong(m.id, s.history[m.id], s.sent[i].version - 1);
  }

  /** The table entry a message points at is that of the event it names. */
  lemma HeldReportFollowsTable(s: State, m: Message)
    requires Inv(s) && Received(s, m) && m.id in s.rows
    ensures ByTheTable(s.rows[m.id], AdapterSpinoffs(m))
  {
    SubjectNamesType(s, m);
    SpinoffsFollowTheTable(m, s.rows[m.id].eventType);
  }

  lemma HeldCarryOk(s: State, op: OpId, purpose: Purpose)
    requires Inv(s) && AllCarryOk(s) && Enabled(s, ReportHeld(op, purpose)) && AdapterStep(s, ReportHeld(op, purpose))
    ensures CarriesOk(s, Loaded(purpose, s.rows[s.ops[op].msg.id]))
  {
    assert CarriesOk(s, s.ops[op]);
    HeldReportFollowsTable(s, s.ops[op].msg);
  }

  /** Apart from a report that loads its event, what an operation carries comes from the operation itself. */
  lemma NewCarryOk(s: State, step: Step, op: OpId)
    requires AllCarryOk(s) && Enabled(s, step) && AdapterStep(s, step) && !step.Attempt? && !step.ReportHeld?
    requires op in Apply(s, step).ops && (op in s.ops ==> Apply(s, step).ops[op] != s.ops[op])
    ensures CarriesOk(s, Apply(s, step).ops[op])
  {
    if step.Decide? {
      assert CarriesOk(s, s.ops[step.op]);
    }
  }

  lemma SentGrows(s: State, step: Step)
    requires Enabled(s, step)
    ensures s.sent <= Apply(s, step).sent
  {
  }

  lemma AfterCommitCarries(s: State, o: Op)
    requires o.Committing? && CarriesOk(s, o)
    ensures var a := AfterCommit(o.cause, o.snap); a.Some? ==> CarriesOk(s, a.value)
  {
  }

  lemma MovedOpsCarry(s: State, ops: map<OpId, Op>, op: OpId, o: Option<Op>)
    requires AllCarryOk(s) && ops == WithOp(s.ops, op, o) && (o.Some? ==> CarriesOk(s, o.value))
    ensures forall a :: a in ops ==> CarriesOk(s, ops[a])
  {
  }

  lemma CommitCarries(s: State, op: OpId, stamp: Time)
    requires Inv(s) && AllCarryOk(s) && Commits(s, op)
    ensures forall a :: a in ApplyAttempt(s, op, stamp).ops ==> CarriesOk(s, ApplyAttempt(s, op, stamp).ops[a])
  {
    var o := s.ops[op];
    CommitShape(s, op, stamp);
    CarryIsOk(s, op);
    AfterCommitCarries(s, o);
    MovedOpsCarry(s, ApplyAttempt(s, op, stamp).ops, op, AfterCommit(o.cause, o.snap));
  }

  lemma CarryIsOk(s: State, op: OpId)
    requires AllCarryOk(s) && op in s.ops
    ensures CarriesOk(s, s.ops[op])
  {
  }

  lemma HeldStepShape(s: State, op: OpId, purpose: Purpose)
    requires Enabled(s, ReportHeld(op, purpose))
    ensures Apply(s, ReportHeld(op, purpose)).ops == s.ops[op := Loaded(purpose, s.rows[s.ops[op].msg.id])]
  {
  }

  lemma AttemptCarries(s: State, op: OpId, stamp: Time, a: OpId)
    requires Inv(s) && AllCarryOk(s) && Enabled(s, Attempt(op, stamp)) && a in ApplyAttempt(s, op, stamp).ops
    ensures CarriesOk(s, ApplyAttempt(s, op, stamp).ops[a])
  {
    if Commits(s, op) {
      CommitCarries(s, op, stamp);
    } else {
      CarryIsOk(s, a);
    }
  }

  lemma HeldStepCarries(s: State, op: OpId, purpose: Purpose, a: OpId)
    requires Inv(s) && AllCarryOk(s) && Enabled(s, ReportHeld(op, purpose)) && AdapterStep(s, ReportHeld(op, purpose))
    requires a in Apply(s, ReportHeld(op, purpose)).ops
    ensures CarriesOk(s, Apply(s, ReportHeld(op, purpose)).ops[a])
  {
    HeldStepShape(s, op, purpose);
    if a == op {
      HeldCarryOk(s, op, purpose);
    } else {
      CarryIsOk(s, a);
    }
  }

  /** After a step, what every operation carries was received before it. */
  lemma StepCarries(s: State, step: Step, op: OpId)
    requires Inv(s) && AllCarryOk(s) && Enabled(s, step) && AdapterStep(s, step) && op in Apply(s, step).ops
    ensures CarriesOk(s, Apply(s, step).ops[op])
  {
    if step.Attempt? {
      AttemptCarries(s, step.op, step.stamp, op);
    } else if step.ReportHeld? {
      HeldStepCarries(s, step.op, step.purpose, op);
    } else if op in s.ops && Apply(s, step).ops[op] == s.ops[op] {
      CarryIsOk(s, op);
    } else {
      NewCarryOk(s, step, op);
    }
  }

  lemma CarryStays(s: State, t: State, o: Op)
    requires s.sent <= t.sent && CarriesOk(s, o)
    ensures CarriesOk(t, o)
  {
    match o
    case Holding(msg) => ReceivedStays(s, t, msg);
    case Loaded(ForPermit(msg), _) => ReceivedStays(s, t, msg);
    case Committing(Permit(_, _, msg), _) => ReceivedStays(s, t, msg);
    case _ =>
  }

  lemma StepKeepsCarry(s: State, step: Step)
    requires Inv(s) && AllCarryOk(s) && Enabled(s, step) && AdapterStep(s, step)
    ensures AllCarryOk(Apply(s, step))
  {
    var t := Apply(s, step);
    SentGrows(s, step);
    forall op | op in t.ops ensures CarriesOk(t, t.ops[op]) {
      StepCarries(s, step, op);
      CarryStays(s, t, t.ops[op]);
    }
  }

  // ---------------------------------------------------------------------------------------------
  // At most one carrier for each place of the chain
  // ---------------------------------------------------------------------------------------------

  /** Publications an operation still has to make. */
  function Carried(o: Op): seq<PublishRequest> {
    match o
    case Publishing(rs) => rs
    case Initiating(_, r, _, _, rest) => [r] + rest
    case Inserted(_, _, rest) => rest
    case _ => []
  }

  predicate InFlow(f: Flow, o: Op) {
    exists i :: 0 <= i < |Carried(o)| && Carried(o)[i].flowId == f.id
  }

  /** A place of the chain is taken by a row or by an operation about to publish it. */
  datatype Carrier = Row(id: EventId) | Pending(op: OpId)

  predicate Takes(rows: Rows, ops: map<OpId, Op>, f: Flow, c: Carrier, r: int) {
    match c
    case Row(id) => id in rows && rows[id].flowId == f.id && RankOf(rows[id].eventType) == r
    case Pending(op) => op in ops && InFlow(f, ops[op]) && RankOf(Carried(ops[op])[0].eventType) == r
  }

  predicate RequestTyped(f: Flow, r: PublishRequest) {
    r.flowId == f.id && r.flowType == f.flowType && r.onFailEventType == None && RankOf(r.eventType) >= 0
  }

  predicate OpTyped(f: Flow, o: Op) {
    InFlow(f, o) ==>
      |Carried(o)| == 1 && RequestTyped(f, Carried(o)[0])
      && (o.Initiating? ==> Seeded(o.request.eventType, o.cfg))
  }

  /** The row belongs to the chain and was granted the seeded attempts. */
  predicate RowTyped(f: Flow, e: Event, granted: int) {
    e.flowId == f.id ==>
      e.flowType == f.flowType && e.onFailEventType == None && RankOf(e.eventType) >= 0
      && granted == SEEDED_ATTEMPTS[RankOf(e.eventType)]
  }

  ghost predicate Typed(rows: Rows, granted: map<EventId, int>, ops: map<OpId, Op>, f: Flow) {
    && rows.Keys == granted.Keys
    && (forall id :: id in rows ==> RowTyped(f, rows[id], granted[id]))
    && (forall op :: op in ops ==> OpTyped(f, ops[op]))
  }

  ghost predicate OneEach(rows: Rows, ops: map<OpId, Op>, f: Flow) {
    forall c1, c2, r :: Takes(rows, ops, f, c1, r) && Takes(rows, ops, f, c2, r) ==> c1 == c2
  }

  ghost predicate ParentDone(rows: Rows, f: Flow, r: int) {
    r > 0 ==> exists id :: Takes(rows, map[], f, Row(id), r - 1) && rows[id].status == Processed
  }

  ghost predicate ParentsDone(rows: Rows, ops: map<OpId, Op>, f: Flow) {
    forall c, r :: Takes(rows, ops, f, c, r) ==> ParentDone(rows, f, r)
  }

  ghost predicate ChainOk(rows: Rows, granted: map<EventId, int>, ops: map<OpId, Op>, f: Flow) {
    Typed(rows, granted, ops, f) && OneEach(rows, ops, f) && ParentsDone(rows, ops, f)
  }

  /** The attempts granted to each event at its publication. */
  ghost function Granted(h: Histories): map<EventId, int> {
    map id | id in h :: if |h[id]| > 0 && h[id][0].cause.Publication? then Budget(h[id]) else 0
  }

  ghost predicate Unused(rows: Rows, ops: map<OpId, Op>, f: Flow) {
    && (forall id :: id in rows ==> rows[id].flowId != f.id)
    && (forall op :: op in ops ==> !InFlow(f, ops[op]))
  }

  ghost predicate RideInv(f: Flow, started: bool, s: State) {
    && Inv(s) && HoldersOk(s.rows, s.ops) && AllCarryOk(s)
    && ChainOk(s.rows, Granted(s.history), s.ops, f)
    && (!started ==> Unused(s.rows, s.ops, f))
  }

  /** An operation moves on without taking a next place; it may give its place up. */
  lemma OpMovesChain(rows: Rows, granted: map<EventId, int>, ops: map<OpId, Op>, f: Flow, op: OpId, o: Option<Op>)
    requires ChainOk(rows, granted, ops, f)
    requires o.Some? && InFlow(f, o.value) ==> op in ops && Carried(o.value) == Carried(ops[op]) && OpTyped(f, o.value)
    ensures ChainOk(rows, granted, WithOp(ops, op, o), f)
  {
    var next := WithOp(ops, op, o);
    assert forall c, r :: Takes(rows, next, f, c, r) ==> Takes(rows, ops, f, c, r);
    forall c, r | Takes(rows, next, f, c, r) ensures ParentDone(rows, f, r) {
      assert Takes(rows, ops, f, c, r);
    }
  }

  /** A publication becomes a row: the place passes from the operation to the row. */
  lemma RowTakesOver(rows: Rows, granted: map<EventId, int>, ops: map<OpId, Op>, f: Flow, op: OpId, o: Op, e: Event,
                     m: int)
    requires ChainOk(rows, granted, ops, f) && op in ops && ops[op].Initiating? && e.id == ops[op].id && e.id !in rows
    requires var r := ops[op].request;
             e.flowId == r.flowId && e.flowType == r.flowType && e.eventType == r.eventType
                 && e.onFailEventType == r.onFailEventType
    requires m == ops[op].cfg.maxAttempts && Carried(o) == ops[op].rest && !o.Initiating?
    ensures ChainOk(rows[e.id := e], granted[e.id := m], ops[op := o], f)
  {
    var rows', ops' := rows[e.id := e], ops[op := o];
    assert OpTyped(f, ops[op]);
    assert Carried(ops[op])[0] == ops[op].request;
    forall i | 0 <= i < |Carried(o)| ensures Carried(o)[i].flowId != f.id {
      assert Carried(ops[op])[i + 1] == Carried(o)[i];
    }
    assert e.flowId == f.id ==> InFlow(f, ops[op]);
    forall c, r | Takes(rows', ops', f, c, r)
      ensures Takes(rows, ops, f, if c == Row(e.id) then Pending(op) else c, r)
    {
    }
    forall c1, c2, r | Takes(rows', ops', f, c1, r) && Takes(rows', ops', f, c2, r) ensures c1 == c2 {
      assert Takes(rows, ops, f, if c1 == Row(e.id) then Pending(op) else c1, r);
      assert Takes(rows, ops, f, if c2 == Row(e.id) then Pending(op) else c2, r);
      assert c1 != Pending(op) && c2 != Pending(op);
    }
    forall c, r | Takes(rows', ops', f, c, r) ensures ParentDone(rows', f, r) {
      assert Takes(rows, ops, f, if c == Row(e.id) then Pending(op) else c, r);
      ParentKept(rows, rows', f, r);
    }
  }

  lemma ParentKept(rows: Rows, next: Rows, f: Flow, r: int)
    requires ParentDone(rows, f, r)
    requires forall id :: id in rows && rows[id].status == Processed ==> id in next && next[id] == rows[id]
    ensures ParentDone(next, f, r)
  {
    if r > 0 {
      var id :| Takes(rows, map[], f, Row(id), r - 1) && rows[id].status == Processed;
      assert Takes(next, map[], f, Row(id), r - 1);
    }
  }

  /** An unfinished row is replaced by a later version of itself. */
  lemma RowMovesOn(rows: Rows, granted: map<EventId, int>, ops: map<OpId, Op>, f: Flow, e: Event)
    requires ChainOk(rows, granted, ops, f) && e.id in rows && SameIdentity(rows[e.id], e)
    requires rows[e.id].status != Processed
    ensures ChainOk(rows[e.id := e], granted, ops, f)
  {
    var next := rows[e.id := e];
    forall c, r | Takes(next, ops, f, c, r) ensures Takes(rows, ops, f, c, r) && ParentDone(next, f, r) {
      assert Takes(rows, ops, f, c, r);
      ParentKept(rows, next, f, r);
    }
  }

  /** Once anything took the next place, the row in this one is processed. */
  lemma ParentIsTheRow(rows: Rows, ops: map<OpId, Op>, f: Flow, id: EventId, k: int)
    requires OneEach(rows, ops, f) && k >= 0 && Takes(rows, ops, f, Row(id), k) && ParentDone(rows, f, k + 1)
    ensures rows[id].status == Processed
  {
    var i :| Takes(rows, map[], f, Row(i), k) && rows[i].status == Processed;
    assert Takes(rows, ops, f, Row(i), k);
  }

  /** While a place is held by an unfinished row, nobody has taken the next one. */
  lemma NextPlaceIsFree(rows: Rows, ops: map<OpId, Op>, f: Flow, id: EventId, k: int)
    requires OneEach(rows, ops, f) && ParentsDone(rows, ops, f)
    requires k >= 0 && Takes(rows, ops, f, Row(id), k) && rows[id].status != Processed
    ensures forall c, r :: Takes(rows, ops, f, c, r) ==> r != k + 1
  {
    forall c, r | Takes(rows, ops, f, c, r) ensures r != k + 1 {
      if r == k + 1 {
        ParentIsTheRow(rows, ops, f, id, k);
      }
    }
  }

  /** A row that is now processed hands the next place to its spinoff. */
  lemma SpinoffTakesNextPlace(rows: Rows, granted: map<EventId, int>, ops: map<OpId, Op>, f: Flow, op: OpId, o: Op,
                              e: Event)
    requires ChainOk(rows, granted, ops, f) && e.id in rows && SameIdentity(rows[e.id], e)
             && rows[e.id].status != Processed
    requires e.status == Processed && e.flowId == f.id && !o.Initiating?
    requires op in ops && !InFlow(f, ops[op])
    requires |Carried(o)| == 1 && RequestTyped(f, Carried(o)[0])
             && RankOf(Carried(o)[0].eventType) == RankOf(e.eventType) + 1
    ensures ChainOk(rows[e.id := e], granted, ops[op := o], f)
  {
    var k := RankOf(e.eventType);
    var next, ops' := rows[e.id := e], ops[op := o];
    RowMovesOn(rows, granted, ops, f, e);
    assert Takes(rows, ops, f, Row(e.id), k);
    NextPlaceIsFree(rows, ops, f, e.id, k);
    forall c, r | Takes(next, ops', f, c, r)
      ensures if c == Pending(op) then r == k + 1 else Takes(next, ops, f, c, r) && r != k + 1
    {
      if c != Pending(op) {
        assert Takes(next, ops, f, c, r) && Takes(rows, ops, f, c, r);
      }
    }
    assert Takes(next, map[], f, Row(e.id), k);
  }

  /** The root takes the first place of an unused flow. */
  lemma RootTakesFirstPlace(rows: Rows, granted: map<EventId, int>, ops: map<OpId, Op>, f: Flow, op: OpId,
                            r: PublishRequest)
    requires ChainOk(rows, granted, ops, f) && Unused(rows, ops, f) && op !in ops && IsRoot(f, r)
    ensures ChainOk(rows, granted, ops[op := Publishing([r])], f)
  {
    RankOfType(0);
    var ops' := ops[op := Publishing([r])];
    assert Carried(ops'[op])[0] == r;
    assert forall c, k :: Takes(rows, ops', f, c, k) ==> c == Pending(op) && k == 0;
  }

  // ---------------------------------------------------------------------------------------------
  // Every step keeps the chain
  // ---------------------------------------------------------------------------------------------

  /** Steps after which the operation carries what it carried before, or nothing of a flow it did not serve. */
  predicate Inner(step: Step) {
    !step.Attempt? && !step.InsertRow? && !step.StartPublish? && !step.LoadOnFailPayload?
  }

  lemma InnerStepShape(s: State, step: Step)
    requires Enabled(s, step) && Inner(step) && !step.Tick?
    ensures var t := Apply(s, step);
            t.rows == s.rows && t.history == s.history &&
            t.ops == WithOp(s.ops, step.op, if step.op in t.ops then Some(t.ops[step.op]) else None)
  {
  }

  lemma InnerStepCarries(s: State, step: Step, f: Flow)
    requires Enabled(s, step) && AdapterStep(s, step) && Inner(step) && !step.Tick? && !step.SkipPublish?
    requires step.op in s.ops ==> OpTyped(f, s.ops[step.op])
    requires step.op in Apply(s, step).ops && InFlow(f, Apply(s, step).ops[step.op])
    ensures step.op in s.ops && Carried(Apply(s, step).ops[step.op]) == Carried(s.ops[step.op])
    ensures OpTyped(f, Apply(s, step).ops[step.op])
  {
    if step.BuildPublish? {
      var rs := s.ops[step.op].requests;
      assert [rs[0]] + rs[1..] == rs;
    }
  }

  lemma SkippedStaysOutside(f: Flow, o: Op)
    requires o.Publishing? && o.requests != [] && OpTyped(f, o)
    ensures !InFlow(f, Publishing(o.requests[1..]))
  {
    forall i | 0 <= i < |o.requests[1..]| ensures o.requests[1..][i].flowId != f.id {
      assert Carried(o)[i + 1] == o.requests[1..][i];
    }
  }

  lemma InnerStepKeepsChain(s: State, step: Step, granted: map<EventId, int>, f: Flow)
    requires Enabled(s, step) && AdapterStep(s, step) && Inner(step) && ChainOk(s.rows, granted, s.ops, f)
    ensures ChainOk(Apply(s, step).rows, granted, Apply(s, step).ops, f)
    ensures Unused(s.rows, s.ops, f) ==> Unused(Apply(s, step).rows, Apply(s, step).ops, f)
  {
    if !step.Tick? {
      InnerStepShape(s, step);
      var t := Apply(s, step);
      if step.SkipPublish? {
        SkippedStaysOutside(f, s.ops[step.op]);
      } else if step.op in t.ops && InFlow(f, t.ops[step.op]) {
        InnerStepCarries(s, step, f);
      }
      OpMovesChain(s.rows, granted, s.ops, f, step.op, if step.op in t.ops then Some(t.ops[step.op]) else None);
    }
  }

  lemma StartKeepsChain(s: State, op: OpId, r: PublishRequest, granted: map<EventId, int>, f: Flow, started: bool)
    requires Enabled(s, StartPublish(op, r)) && ChainOk(s.rows, granted, s.ops, f)
    requires !started ==> Unused(s.rows, s.ops, f)
    requires r.flowId == f.id ==> !started && IsRoot(f, r)
    ensures var t := Apply(s, StartPublish(op, r));
            ChainOk(t.rows, granted, t.ops, f) && (!started && r.flowId != f.id ==> Unused(t.rows, t.ops, f))
  {
    if r.flowId == f.id {
      RootTakesFirstPlace(s.rows, granted, s.ops, f, op, r);
    } else {
      OpMovesChain(s.rows, granted, s.ops, f, op, Some(Publishing([r])));
    }
  }

  /** An event of the flow names no on-fail type, so no on-fail publication enters the flow. */
  lemma OnFailStaysOutside(s: State, op: OpId, granted: map<EventId, int>, f: Flow)
    requires Inv(s) && Enabled(s, LoadOnFailPayload(op)) && Typed(s.rows, granted, s.ops, f)
    ensures s.ops[op].snap.flowId != f.id
  {
    OpIsOk(s, op);
    IdentityAlong(s, s.ops[op].snap);
    assert RowTyped(f, s.rows[s.ops[op].snap.id], granted[s.ops[op].snap.id]);
  }

  lemma OnFailKeepsChain(s: State, op: OpId, granted: map<EventId, int>, f: Flow)
    requires Inv(s) && Enabled(s, LoadOnFailPayload(op)) && ChainOk(s.rows, granted, s.ops, f)
    ensures var t := Apply(s, LoadOnFailPayload(op));
            ChainOk(t.rows, granted, t.ops, f) && (Unused(s.rows, s.ops, f) ==> Unused(t.rows, t.ops, f))
  {
    OnFailStaysOutside(s, op, granted, f);
    OpMovesChain(s.rows, granted, s.ops, f, op, Some(Apply(s, LoadOnFailPayload(op)).ops[op]));
  }

  lemma GrantedOnInsert(h: Histories, id: EventId, n: Entry)
    requires n.cause.Publication?
    ensures Granted(h[id := [n]]) == Granted(h)[id := n.cause.cfg.maxAttempts]
  {
  }

  lemma GrantedOnCommit(h: Histories, id: EventId, n: Entry)
    requires id in h && |h[id]| > 0
    ensures Granted(h[id := h[id] + [n]]) == Granted(h)
  {
  }

  lemma RestStaysOutside(f: Flow, o: Op)
    requires o.Initiating? && OpTyped(f, o)
    ensures !InFlow(f, Publishing(o.rest)) && !InFlow(f, Inserted(o.id, o.request.payload, o.rest))
  {
    forall i | 0 <= i < |o.rest| ensures o.rest[i].flowId != f.id {
      assert Carried(o)[i + 1] == o.rest[i];
    }
  }

  lemma InsertMovesChain(rows: Rows, granted: map<EventId, int>, ops: map<OpId, Op>, f: Flow, op: OpId, stamp: Time,
                         now: Time)
    requires ChainOk(rows, granted, ops, f) && op in ops && ops[op].Initiating? && ValidConfig(ops[op].cfg)
             && ops[op].id !in rows
    ensures var o := ops[op]; var n := FirstEntry(o, stamp, now);
            var ops' := ops[op := Inserted(o.id, o.request.payload, o.rest)];
            ChainOk(rows[o.id := n.row], granted[o.id := o.cfg.maxAttempts], ops', f) &&
            (Unused(rows, ops, f) ==> Unused(rows[o.id := n.row], ops', f))
  {
    var o := ops[op];
    assert OpTyped(f, o);
    RestStaysOutside(f, o);
    assert Carried(o)[0] == o.request;
    RowTakesOver(rows, granted, ops, f, op, Inserted(o.id, o.request.payload, o.rest), FirstEntry(o, stamp, now).row,
        o.cfg.maxAttempts);
  }

  lemma IgnoredInsertKeepsChain(rows: Rows, granted: map<EventId, int>, ops: map<OpId, Op>, f: Flow, op: OpId)
    requires ChainOk(rows, granted, ops, f) && op in ops && ops[op].Initiating?
    ensures var ops' := ops[op := Publishing(ops[op].rest)];
            ChainOk(rows, granted, ops', f) && (Unused(rows, ops, f) ==> Unused(rows, ops', f))
  {
    assert OpTyped(f, ops[op]);
    RestStaysOutside(f, ops[op]);
    OpMovesChain(rows, granted, ops, f, op, Some(Publishing(ops[op].rest)));
  }

  lemma InsertKeepsChain(s: State, op: OpId, stamp: Time, f: Flow)
    requires Inv(s) && Enabled(s, InsertRow(op, stamp)) && ChainOk(s.rows, Granted(s.history), s.ops, f)
    ensures var t := Apply(s, InsertRow(op, stamp));
            ChainOk(t.rows, Granted(t.history), t.ops, f) && (Unused(s.rows, s.ops, f) ==> Unused(t.rows, t.ops, f))
  {
    var o := s.ops[op];
    if o.id in s.rows {
      IgnoredInsertKeepsChain(s.rows, Granted(s.history), s.ops, f, op);
    } else {
      GrantedOnInsert(s.history, o.id, FirstEntry(o, stamp, s.now));
      InsertMovesChain(s.rows, Granted(s.history), s.ops, f, op, stamp, s.now);
    }
  }

  lemma CommitKeepsIdentity(o: Op, stamp: Time, now: Time)
    requires o.Committing? && Permissible(o.snap, o.cause)
    requires StoredOptTime(o.snap.eventProcessingDueDate) == o.snap.eventProcessingDueDate
    ensures var n := NewEntry(o, stamp, now).row;
            SameIdentity(o.snap, n) && (o.cause.Success? ==> n.status == Processed)
  {
  }

  lemma TableMovesOnePlace(e: Event, spinoffs: seq<Spinoff>)
    requires ByTheTable(e, spinoffs) && spinoffs != [] && RankOf(e.eventType) >= 0
    ensures |spinoffs| == 1 && spinoffs[0].onFailEventType == None
    ensures RankOf(spinoffs[0].eventType) == RankOf(e.eventType) + 1
  {
    ChainAdvances(e.eventType);
  }

  /** What a chaining success goes on to publish. */
  lemma SpinoffIsTyped(f: Flow, e: Event, spinoffs: seq<Spinoff>) returns (r: PublishRequest)
    requires |spinoffs| == 1 && spinoffs[0].onFailEventType == None
             && RankOf(spinoffs[0].eventType) == RankOf(e.eventType) + 1
    requires e.flowId == f.id && e.flowType == f.flowType && RankOf(e.eventType) >= 0
    ensures AfterCommit(Success(spinoffs), e) == Some(Publishing([r]))
    ensures RequestTyped(f, r) && RankOf(r.eventType) == RankOf(e.eventType) + 1
  {
    var sp := spinoffs[0];
    r := PublishRequest(sp.eventType, e.flowType, e.flowId, sp.payload, sp.onFailEventType);
    OneSpinoff(e, spinoffs);
  }

  lemma OneSpinoff(e: Event, sp: seq<Spinoff>)
    requires |sp| == 1
    ensures SpinoffRequests(e, sp) ==
            [PublishRequest(sp[0].eventType, e.flowType, e.flowId, sp[0].payload, sp[0].onFailEventType)]
  {
  }

  lemma AfterCommitOutside(f: Flow, o: Op)
    requires o.Committing? && (o.cause.Success? ==> o.snap.flowId != f.id || o.cause.spinoffs == [])
    ensures var a := AfterCommit(o.cause, o.snap); a.Some? ==> !InFlow(f, a.value)
  {
  }

  /** The row a committed update works on, and what it carries. */
  predicate CommitFits(rows: Rows, ops: map<OpId, Op>, op: OpId, n: Event) {
    && op in ops && ops[op].Committing?
    && var e := ops[op].snap;
       e.id in rows && rows[e.id] == e && SameIdentity(e, n) && e.status != Processed
  }

  lemma PlainCommitMovesChain(rows: Rows, granted: map<EventId, int>, ops: map<OpId, Op>, f: Flow, op: OpId, n: Event)
    requires ChainOk(rows, granted, ops, f) && CommitFits(rows, ops, op, n)
    requires ops[op].cause.Success? ==> ops[op].snap.flowId != f.id || ops[op].cause.spinoffs == []
    ensures var ops' := WithOp(ops, op, AfterCommit(ops[op].cause, ops[op].snap));
            ChainOk(rows[n.id := n], granted, ops', f) && (Unused(rows, ops, f) ==> Unused(rows[n.id := n], ops', f))
  {
    AfterCommitOutside(f, ops[op]);
    RowMovesOn(rows, granted, ops, f, n);
    OpMovesChain(rows[n.id := n], granted, ops, f, op, AfterCommit(ops[op].cause, ops[op].snap));
  }

  lemma ChainingCommitMovesChain(rows: Rows, granted: map<EventId, int>, ops: map<OpId, Op>, f: Flow, op: OpId,
                                 n: Event, r: PublishRequest)
    requires ChainOk(rows, granted, ops, f) && CommitFits(rows, ops, op, n)
    requires ops[op].snap.flowId == f.id && n.status == Processed
    requires RequestTyped(f, r) && RankOf(r.eventType) == RankOf(ops[op].snap.eventType) + 1
    ensures ChainOk(rows[n.id := n], granted, ops[op := Publishing([r])], f)
    ensures !Unused(rows, ops, f)
  {
    assert Carried(Publishing([r]))[0] == r;
    SpinoffTakesNextPlace(rows, granted, ops, f, op, Publishing([r]), n);
  }

  lemma InFlowRowIsTyped(rows: Rows, granted: map<EventId, int>, ops: map<OpId, Op>, f: Flow, id: EventId)
    requires Typed(rows, granted, ops, f) && id in rows && rows[id].flowId == f.id
    ensures rows[id].flowType == f.flowType && RankOf(rows[id].eventType) >= 0
  {
    assert RowTyped(f, rows[id], granted[id]);
  }

  lemma CommitMovesChain(rows: Rows, granted: map<EventId, int>, ops: map<OpId, Op>, f: Flow, op: OpId, n: Event)
    requires ChainOk(rows, granted, ops, f) && CommitFits(rows, ops, op, n)
    requires ops[op].cause.Success? ==> ByTheTable(ops[op].snap, ops[op].cause.spinoffs) && n.status == Processed
    ensures var ops' := WithOp(ops, op, AfterCommit(ops[op].cause, ops[op].snap));
            ChainOk(rows[n.id := n], granted, ops', f) && (Unused(rows, ops, f) ==> Unused(rows[n.id := n], ops', f))
  {
    var o := ops[op];
    if o.cause.Success? && o.snap.flowId == f.id && o.cause.spinoffs != [] {
      InFlowRowIsTyped(rows, granted, ops, f, o.snap.id);
      TableMovesOnePlace(o.snap, o.cause.spinoffs);
      var r := SpinoffIsTyped(f, o.snap, o.cause.spinoffs);
      ChainingCommitMovesChain(rows, granted, ops, f, op, n, r);
      assert WithOp(ops, op, AfterCommit(o.cause, o.snap)) == ops[op := Publishing([r])];
    } else {
      PlainCommitMovesChain(rows, granted, ops, f, op, n);
    }
  }

  lemma CommitKeepsChain(s: State, op: OpId, stamp: Time, f: Flow)
    requires Inv(s) && HoldersOk(s.rows, s.ops) && AllCarryOk(s) && Commits(s, op)
    requires ChainOk(s.rows, Granted(s.history), s.ops, f)
    ensures var t := ApplyAttempt(s, op, stamp);
            ChainOk(t.rows, Granted(t.history), t.ops, f) && (Unused(s.rows, s.ops, f) ==> Unused(t.rows, t.ops, f))
  {
    var o := s.ops[op];
    var n := NewEntry(o, stamp, s.now);
    CommitFitsHere(s, op, stamp);
    GrantedOnCommit(s.history, o.snap.id, n);
    CommitMovesChain(s.rows, Granted(s.history), s.ops, f, op, n.row);
    CommitShape(s, op, stamp);
  }

  lemma CommitFitsHere(s: State, op: OpId, stamp: Time)
    requires Inv(s) && HoldersOk(s.rows, s.ops) && AllCarryOk(s) && Commits(s, op)
    ensures var o := s.ops[op]; var n := NewEntry(o, stamp, s.now).row;
            CommitFits(s.rows, s.ops, op, n) && o.snap.id in s.history && |s.history[o.snap.id]| > 0 &&
            (o.cause.Success? ==> ByTheTable(o.snap, o.cause.spinoffs) && n.status == Processed)
  {
    var o := s.ops[op];
    SnapshotIsCurrent(s, op);
    TerminalRowIsNotReplaced(s, op);
    DueDateIsStored(s, o.snap.id);
    CommitKeepsIdentity(o, stamp, s.now);
    CarryIsOk(s, op);
  }

  lemma DueDateIsStored(s: State, id: EventId)
    requires Inv(s) && id in s.rows
    ensures id in s.history && |s.history[id]| > 0
    ensures StoredOptTime(s.rows[id].eventProcessingDueDate) == s.rows[id].eventProcessingDueDate
  {
    assert HistoryOk(s.rows, s.history, s.now, id);
    LineageIsLawful(id, s.history[id]);
  }

  lemma StepKeepsChain(f: Flow, started: bool, s: State, step: Step)
    requires RideInv(f, started, s) && Enabled(s, step) && AdapterStep(s, step)
    requires OutsidePublish(f, step) ==> !started && IsRoot(f, step.request)
    ensures var t := Apply(s, step);
            ChainOk(t.rows, Granted(t.history), t.ops, f) &&
            (!(started || OutsidePublish(f, step)) ==> Unused(t.rows, t.ops, f))
  {
    if step.Attempt? {
      if Commits(s, step.op) {
        CommitKeepsChain(s, step.op, step.stamp, f);
      }
    } else if step.InsertRow? {
      InsertKeepsChain(s, step.op, step.stamp, f);
    } else {
      TimeAdvances(s, step);
      if step.StartPublish? {
        StartKeepsChain(s, step.op, step.request, Granted(s.history), f, started);
      } else if step.LoadOnFailPayload? {
        OnFailKeepsChain(s, step.op, Granted(s.history), f);
      } else {
        InnerStepKeepsChain(s, step, Granted(s.history), f);
      }
    }
  }

  lemma StepKeepsRideInv(f: Flow, started: bool, s: State, step: Step)
    requires RideInv(f, started, s) && Enabled(s, step) && AdapterStep(s, step)
    requires OutsidePublish(f, step) ==> !started && IsRoot(f, step.request)
    ensures RideInv(f, started || OutsidePublish(f, step), Apply(s, step))
  {
    StepKeepsInv(s, step);
    StepKeepsHolders(s, step);
    StepKeepsCarry(s, step);
    StepKeepsChain(f, started, s, step);
  }

  lemma {:induction false} RideRunKeepsInv(f: Flow, started: bool, s: State, steps: seq<Step>, t: State)
    requires RideInv(f, started, s) && RideRun(f, started, s, steps, t)
    ensures exists done :: RideInv(f, done, t)
    decreases |steps|
  {
    if steps == [] {
    } else {
      StepKeepsRideInv(f, started, s, steps[0]);
      RideRunKeepsInv(f, started || OutsidePublish(f, steps[0]), Apply(s, steps[0]), steps[1..], t);
    }
  }

  // ---------------------------------------------------------------------------------------------
  // The bound
  // ---------------------------------------------------------------------------------------------

  ghost function TotalPermits(h: Histories, ids: seq<EventId>): nat {
    if ids == [] then 0
    else (if ids[0] in h then TallyOf(h[ids[0]]).permits else 0) + TotalPermits(h, ids[1..])
  }

  /** The seeded attempts of the places in the set. */
  function SeededFor(ranks: set<int>): int {
    (if 0 in ranks then 3 else 0) + (if 1 in ranks then 3 else 0) + (if 2 in ranks then 2 else 0)
    + (if 3 in ranks then 1 else 0) + (if 4 in ranks then 1 else 0) + (if 5 in ranks then 3 else 0)
  }

  function Ranks(rows: Rows, ids: seq<EventId>): set<int> {
    set id | id in ids && id in rows :: RankOf(rows[id].eventType)
  }

  predicate EventsOf(rows: Rows, f: Flow, ids: seq<EventId>) {
    && (forall i :: 0 <= i < |ids| ==> ids[i] in rows && rows[ids[i]].flowId == f.id)
    && (forall i, j :: 0 <= i < j < |ids| ==> ids[i] != ids[j])
  }

  lemma PermitsWithinGrant(s: State, id: EventId)
    requires Inv(s) && id in s.rows
    ensures id in s.history && id in Granted(s.history) && TallyOf(s.history[id]).permits <= Granted(s.history)[id]
  {
    assert HistoryOk(s.rows, s.history, s.now, id);
    WorkIsBounded(id, s.history[id]);
  }

  lemma OneMorePlace(ranks: set<int>, r: int)
    requires 0 <= r < 6 && r !in ranks
    ensures SeededFor(ranks + {r}) == SeededFor(ranks) + SEEDED_ATTEMPTS[r]
  {
  }

  /** Different events of the flow hold different places. */
  lemma PlacesDiffer(rows: Rows, granted: map<EventId, int>, ops: map<OpId, Op>, f: Flow, a: EventId, b: EventId)
    requires ChainOk(rows, granted, ops, f) && a in rows && b in rows && a != b
    requires rows[a].flowId == f.id && rows[b].flowId == f.id
    ensures RankOf(rows[a].eventType) != RankOf(rows[b].eventType)
  {
    var r := RankOf(rows[a].eventType);
    assert Takes(rows, ops, f, Row(a), r);
    assert Takes(rows, ops, f, Row(b), RankOf(rows[b].eventType));
  }

  lemma PlacePermits(f: Flow, started: bool, s: State, id: EventId)
    requires RideInv(f, started, s) && id in s.rows && s.rows[id].flowId == f.id
    ensures id in s.history && RankOf(s.rows[id].eventType) >= 0
    ensures TallyOf(s.history[id]).permits <= SEEDED_ATTEMPTS[RankOf(s.rows[id].eventType)]
  {
    PermitsWithinGrant(s, id);
    assert RowTyped(f, s.rows[id], Granted(s.history)[id]);
  }

  /** The event's permits fit its place, and its place is its own. */
  ghost predicate FitsPlace(rows: Rows, h: Histories, id: EventId) {
    && id in rows && id in h && RankOf(rows[id].eventType) >= 0
    && TallyOf(h[id]).permits <= SEEDED_ATTEMPTS[RankOf(rows[id].eventType)]
  }

  predicate OtherPlace(rows: Rows, a: EventId, b: EventId) {
    a in rows && b in rows && RankOf(rows[a].eventType) != RankOf(rows[b].eventType)
  }

  lemma RanksAddOne(rows: Rows, id: EventId, rest: seq<EventId>)
    requires id in rows
    ensures Ranks(rows, [id] + rest) == Ranks(rows, rest) + {RankOf(rows[id].eventType)}
  {
  }

  lemma RankIsNew(rows: Rows, id: EventId, rest: seq<EventId>)
    requires forall j :: 0 <= j < |rest| ==> OtherPlace(rows, id, rest[j])
    requires id in rows
    ensures RankOf(rows[id].eventType) !in Ranks(rows, rest)
  {
  }

  lemma OneMoreEvent(rows: Rows, h: Histories, id: EventId, rest: seq<EventId>)
    requires FitsPlace(rows, h, id) && RankOf(rows[id].eventType) !in Ranks(rows, rest)
    requires TotalPermits(h, rest) <= SeededFor(Ranks(rows, rest)) && |rest| == |Ranks(rows, rest)|
    ensures TotalPermits(h, [id] + rest) <= SeededFor(Ranks(rows, [id] + rest))
    ensures |[id] + rest| == |Ranks(rows, [id] + rest)|
  {
    assert ([id] + rest)[1..] == rest;
    RanksAddOne(rows, id, rest);
    OneMorePlace(Ranks(rows, rest), RankOf(rows[id].eventType));
  }

  /** The events fit their places, and no two share one. */
  ghost predicate OnOwnPlaces(rows: Rows, h: Histories, ids: seq<EventId>) {
    && (forall i :: 0 <= i < |ids| ==> FitsPlace(rows, h, ids[i]))
    && (forall i, j :: 0 <= i < j < |ids| ==> OtherPlace(rows, ids[i], ids[j]))
  }

  lemma FirstOnItsOwnPlace(rows: Rows, h: Histories, ids: seq<EventId>)
    requires ids != [] && OnOwnPlaces(rows, h, ids)
    ensures FitsPlace(rows, h, ids[0]) && OnOwnPlaces(rows, h, ids[1..])
    ensures RankOf(rows[ids[0]].eventType) !in Ranks(rows, ids[1..])
  {
    forall j | 0 <= j < |ids[1..]| ensures OtherPlace(rows, ids[0], ids[1..][j]) {
      assert OtherPlace(rows, ids[0], ids[j + 1]);
    }
    RankIsNew(rows, ids[0], ids[1..]);
  }

  lemma {:induction false} PlacesBoundPermits(rows: Rows, h: Histories, ids: seq<EventId>)
    requires OnOwnPlaces(rows, h, ids)
    ensures TotalPermits(h, ids) <= SeededFor(Ranks(rows, ids)) && |ids| == |Ranks(rows, ids)|
    decreases |ids|
  {
    if ids == [] {
      assert Ranks(rows, ids) == {};
    } else {
      FirstOnItsOwnPlace(rows, h, ids);
      PlacesBoundPermits(rows, h, ids[1..]);
      OneMoreEvent(rows, h, ids[0], ids[1..]);
      assert ids == [ids[0]] + ids[1..];
    }
  }

  lemma SixPlaces(ranks: set<int>)
    requires forall r :: r in ranks ==> 0 <= r < 6
    ensures |ranks| <= 6 && SeededFor(ranks) <= 13
  {
    var all := {0, 1, 2, 3, 4, 5};
    forall r | r in ranks ensures r in all {
    }
    assert |all - ranks| + |ranks| == |all|;
  }

  /**
   * One ride request leads to at most six events, all in its own flow type, and to at most thirteen permits,
   * whatever is delivered twice, retried, reported late or interleaved with other flows.
   */
  lemma RideIsBounded(f: Flow, now: Time, steps: seq<Step>, s: State, ids: seq<EventId>)
    requires RideRun(f, false, Init(now), steps, s) && EventsOf(s.rows, f, ids)
    ensures |ids| <= 6
    ensures forall i :: 0 <= i < |ids| ==>
              s.rows[ids[i]].flowType == f.flowType && RankOf(s.rows[ids[i]].eventType) >= 0
    ensures TotalPermits(s.history, ids) <= 13
  {
    InitRideInv(f, now);
    RideRunKeepsInv(f, false, Init(now), steps, s);
    var done :| RideInv(f, done, s);
    RideInvBounds(f, done, s, ids);
  }

  lemma InitRideInv(f: Flow, now: Time)
    ensures RideInv(f, false, Init(now))
  {
    InitInv(now);
    InitHoldersOk(now);
  }

  lemma EventsFitPlaces(f: Flow, started: bool, s: State, ids: seq<EventId>, i: nat)
    requires RideInv(f, started, s) && EventsOf(s.rows, f, ids) && i < |ids|
    ensures FitsPlace(s.rows, s.history, ids[i]) && s.rows[ids[i]].flowType == f.flowType
  {
    PlacePermits(f, started, s, ids[i]);
    InFlowRowIsTyped(s.rows, Granted(s.history), s.ops, f, ids[i]);
  }

  lemma FlowFitsPlaces(f: Flow, started: bool, s: State, ids: seq<EventId>)
    requires RideInv(f, started, s) && EventsOf(s.rows, f, ids)
    ensures forall i :: 0 <= i < |ids| ==> FitsPlace(s.rows, s.history, ids[i]) && s.rows[ids[i]].flowType == f.flowType
  {
    forall i | 0 <= i < |ids|
      ensures FitsPlace(s.rows, s.history, ids[i]) && s.rows[ids[i]].flowType == f.flowType
    {
      EventsFitPlaces(f, started, s, ids, i);
    }
  }

  lemma FlowPlacesDiffer(rows: Rows, granted: map<EventId, int>, ops: map<OpId, Op>, f: Flow, ids: seq<EventId>)
    requires ChainOk(rows, granted, ops, f) && EventsOf(rows, f, ids)
    ensures forall i, j :: 0 <= i < j < |ids| ==> OtherPlace(rows, ids[i], ids[j])
  {
    forall i, j | 0 <= i < j < |ids| ensures OtherPlace(rows, ids[i], ids[j]) {
      PlacesDiffer(rows, granted, ops, f, ids[i], ids[j]);
    }
  }

  lemma RanksInRange(rows: Rows, h: Histories, ids: seq<EventId>)
    requires forall i :: 0 <= i < |ids| ==> FitsPlace(rows, h, ids[i])
    ensures forall r :: r in Ranks(rows, ids) ==> 0 <= r < 6
  {
  }

  lemma RideInvBounds(f: Flow, started: bool, s: State, ids: seq<EventId>)
    requires RideInv(f, started, s) && EventsOf(s.rows, f, ids)
    ensures |ids| <= 6 && TotalPermits(s.history, ids) <= 13
    ensures forall i :: 0 <= i < |ids| ==>
              s.rows[ids[i]].flowType == f.flowType && RankOf(s.rows[ids[i]].eventType) >= 0
  {
    FlowFitsPlaces(f, started, s, ids);
    FlowPlacesDiffer(s.rows, Granted(s.history), s.ops, f, ids);
    assert OnOwnPlaces(s.rows, s.history, ids);
    PlacesBoundPermits(s.rows, s.history, ids);
    RanksInRange(s.rows, s.history, ids);
    SixPlaces(Ranks(s.rows, ids));
  }
}
