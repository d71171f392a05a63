/**
 * Any number of jobs, permit seekers, reporters and publishers over one event table.
 * Each operation works on the snapshot it loaded, however stale, and its update commits only if the row still
 * carries the snapshot's version. The history is auxiliary: no step reads it.
 */
module Protocol {
  import opened EventModel
  import opened EventStore
  import opened Decisions
  import opened Lineage
  import Dispatcher

  type OpId = nat

  datatype Purpose =
    | ForPermit(msg: Message)
    | ForSuccess(spinoffs: seq<Spinoff>)
    | ForFailure

  /** Where an operation stands between two accesses of shared state. */
  datatype Op =
    | Publishing(requests: seq<PublishRequest>)
    | Initiating(id: EventId, request: PublishRequest, cfg: Config, at: Time, rest: seq<PublishRequest>)
    | Inserted(id: EventId, payload: string, rest: seq<PublishRequest>)
    | Found(finder: Finder, snap: Event)
    | Loaded(purpose: Purpose, snap: Event)
    | Retrying(cfg: Config, judgedAt: Time, snap: Event)
    | Committing(cause: Cause, snap: Event)
    | Sending(snap: Event, body: Option<string>)
    | Holding(msg: Message)
    | OnFailing(snap: Event)

  /** A broker message and, as auxiliary data, the version of its snapshot and the instant of its expiry test. */
  datatype Sent = Sent(msg: Message, version: int, at: Time)

  datatype State = State(
    rows: Rows,
    payloads: map<EventId, string>,
    sent: seq<Sent>,
    now: Time,
    ops: map<OpId, Op>,
    history: map<EventId, History>)

  datatype Step =
    | Tick(to: Time)
    | StartPublish(op: OpId, request: PublishRequest)
    | BuildPublish(op: OpId, id: EventId, cfg: Config)
    | SkipPublish(op: OpId)
    | InsertRow(op: OpId, stamp: Time)
    | SavePayload(op: OpId)
    | FindEvent(op: OpId, id: EventId, finder: Finder)
    | LoadForPermit(op: OpId, msg: Message)
    | ReportHeld(op: OpId, purpose: Purpose)
    | ReportUnasked(op: OpId, id: EventId, purpose: Purpose)
    | Decide(op: OpId, cfg: Config)
    | Schedule(op: OpId)
    | Attempt(op: OpId, stamp: Time)
    | LoadSendPayload(op: OpId)
    | Send(op: OpId, publishedAt: Time)
    | LoadOnFailPayload(op: OpId)
    | GiveUp(op: OpId)

  function Init(now: Time): State {
    State(map[], map[], [], now, map[], map[])
  }

  /**
   * The steps open in a state. A command is built only after its checks passed, and only from a configuration that
   * allows an attempt, so the two side conditions on Attempt and InsertRow never shut a step out (see Inv).
   */
  predicate Enabled(s: State, step: Step) {
    match step
    case Tick(to) => s.now <= to
    case StartPublish(op, _) => op !in s.ops
    case BuildPublish(op, _, cfg) =>
      op in s.ops && s.ops[op].Publishing? && s.ops[op].requests != [] && ValidConfig(cfg)
    case SkipPublish(op) => op in s.ops && s.ops[op].Publishing? && s.ops[op].requests != []
    case InsertRow(op, _) => op in s.ops && s.ops[op].Initiating? && ValidConfig(s.ops[op].cfg)
    case SavePayload(op) => op in s.ops && s.ops[op].Inserted?
    case FindEvent(op, id, finder) =>
      op !in s.ops && id in s.rows && Matches(FilterOf(finder, s.rows[id].flowType, s.now), s.rows[id])
    case LoadForPermit(op, msg) => op !in s.ops && msg.id in s.rows
    case ReportHeld(op, purpose) =>
      op in s.ops && s.ops[op].Holding? && s.ops[op].msg.id in s.rows && !purpose.ForPermit?
    case ReportUnasked(op, id, purpose) => op !in s.ops && id in s.rows && !purpose.ForPermit?
    case Decide(op, cfg) => op in s.ops && (s.ops[op].Found? || s.ops[op].Loaded?) && ValidConfig(cfg)
    case Schedule(op) => op in s.ops && s.ops[op].Retrying?
    case Attempt(op, _) => op in s.ops && s.ops[op].Committing? && Permissible(s.ops[op].snap, s.ops[op].cause)
    case LoadSendPayload(op) => op in s.ops && s.ops[op].Sending? && s.ops[op].body.None?
    case Send(op, publishedAt) =>
      op in s.ops && s.ops[op].Sending? && s.ops[op].body.Some? && s.now <= publishedAt
      && Dispatcher.Dispatched(s.ops[op].snap, "", s.now, publishedAt).Published?
    case LoadOnFailPayload(op) => op in s.ops && s.ops[op].OnFailing? && s.ops[op].snap.onFailEventType.Some?
    case GiveUp(op) => op in s.ops
  }

  /** The decision an operation takes on its snapshot; None when it ends without a command. */
  function Decided(o: Op, cfg: Config, now: Time): Option<Op>
    requires o.Found? || o.Loaded?
    requires ValidConfig(cfg)
  {
    match o
    case Found(finder, snap) =>
      if finder == ExpiredSuspendedFinder then Some(Committing(Reactivation, snap))
      else if cfg.isSuspended then None
      else Some(Committing(Dispatch(finder, cfg), snap))
    case Loaded(ForPermit(msg), snap) =>
      if snap.status != Dispatched then None else Some(Committing(Permit(cfg, now, msg), snap))
    case Loaded(ForSuccess(spinoffs), snap) => Some(Committing(Success(spinoffs), snap))
    case Loaded(ForFailure, snap) =>
      if RetriesRemain(snap, now) then Some(Retrying(cfg, now, snap)) else Some(Committing(Failure(now), snap))
  }

  /** What an operation goes on to do once its update committed. */
  function AfterCommit(c: Cause, snap: Event): Option<Op> {
    match c
    case Publication(_, _, _) => None
    case Dispatch(_, _) => Some(Sending(snap, None))
    case Permit(_, _, msg) => Some(Holding(msg))
    case Switch(_, _, _) => None
    case Success(spinoffs) => Some(Publishing(SpinoffRequests(snap, spinoffs)))
    case Failure(_) => if snap.onFailEventType.Some? then Some(OnFailing(snap)) else None
    case Reactivation => None
  }

  function WithOp(ops: map<OpId, Op>, op: OpId, o: Option<Op>): map<OpId, Op> {
    match o
    case None => ops - {op}
    case Some(v) => ops[op := v]
  }

  predicate Commits(s: State, op: OpId) {
    && op in s.ops && s.ops[op].Committing? && Permissible(s.ops[op].snap, s.ops[op].cause)
    && Hits(s.rows, CommandOf(s.ops[op].snap, s.ops[op].cause))
  }

  function PayloadOr(s: State, id: EventId, default: string): string {
    if id in s.payloads then s.payloads[id] else default
  }

  /** INSERT IGNORE, then on to the payload only if this call created the row. */
  function ApplyInsert(s: State, op: OpId, stamp: Time): State
    requires Enabled(s, InsertRow(op, stamp))
  {
    var o := s.ops[op];
    if o.id in s.rows then s.(ops := s.ops[op := Publishing(o.rest)])
    else
      var rows := Exec(s.rows, Insert(InitiationFor(o.id, o.request, o.cfg, o.at), stamp));
      var entry := Entry(Publication(o.request, o.cfg, o.at), rows[o.id], stamp, s.now);
      s.(rows := rows, history := s.history[o.id := [entry]],
         ops := s.ops[op := Inserted(o.id, o.request.payload, o.rest)])
  }

  /** One try of the retry loop: the versioned update either commits and the operation moves on, or nothing happens. */
  function ApplyAttempt(s: State, op: OpId, stamp: Time): State
    requires Enabled(s, Attempt(op, stamp))
  {
    var o := s.ops[op];
    var id := o.snap.id;
    if !Commits(s, op) then s
    else
      var rows := Exec(s.rows, Update(CommandOf(o.snap, o.cause), stamp));
      var past := if id in s.history then s.history[id] else [];
      s.(rows := rows, history := s.history[id := past + [Entry(o.cause, rows[id], stamp, s.now)]],
         ops := WithOp(s.ops, op, AfterCommit(o.cause, o.snap)))
  }

  function Apply(s: State, step: Step): State
    requires Enabled(s, step)
  {
    match step
    case Tick(to) => s.(now := to)
    case StartPublish(op, request) => s.(ops := s.ops[op := Publishing([request])])
    case BuildPublish(op, id, cfg) =>
      var rs := s.ops[op].requests;
      s.(ops := s.ops[op := Initiating(id, rs[0], cfg, s.now, rs[1..])])
    case SkipPublish(op) => s.(ops := s.ops[op := Publishing(s.ops[op].requests[1..])])
    case InsertRow(op, stamp) => ApplyInsert(s, op, stamp)
    case SavePayload(op) =>
      var o := s.ops[op];
      s.(payloads := s.payloads[o.id := o.payload], ops := s.ops[op := Publishing(o.rest)])
    case FindEvent(op, id, finder) => s.(ops := s.ops[op := Found(finder, s.rows[id])])
    case LoadForPermit(op, msg) => s.(ops := s.ops[op := Loaded(ForPermit(msg), s.rows[msg.id])])
    case ReportHeld(op, purpose) => s.(ops := s.ops[op := Loaded(purpose, s.rows[s.ops[op].msg.id])])
    case ReportUnasked(op, id, purpose) => s.(ops := s.ops[op := Loaded(purpose, s.rows[id])])
    case Decide(op, cfg) => s.(ops := WithOp(s.ops, op, Decided(s.ops[op], cfg, s.now)))
    case Schedule(op) =>
      var o := s.ops[op];
      s.(ops := s.ops[op := Committing(Switch(o.cfg, o.judgedAt, s.now), o.snap)])
    case Attempt(op, stamp) => ApplyAttempt(s, op, stamp)
    case LoadSendPayload(op) =>
      var e := s.ops[op].snap;
      s.(ops := s.ops[op := Sending(e, Some(PayloadOr(s, e.id, "{}")))])
    case Send(op, publishedAt) =>
      var e := s.ops[op].snap;
      var msg := Dispatcher.Dispatched(e, s.ops[op].body.value, s.now, publishedAt).msg;
      s.(sent := s.sent + [Sent(msg, e.version, s.now)], ops := s.ops - {op})
    case LoadOnFailPayload(op) =>
      var e := s.ops[op].snap;
      s.(ops := s.ops[op := Publishing([OnFailRequest(e, PayloadOr(s, e.id, ""))])])
    case GiveUp(op) => s.(ops := s.ops - {op})
  }

  ghost predicate Run(s: State, steps: seq<Step>, t: State)
    decreases |steps|
  {
    if steps == [] then s == t
    else Enabled(s, steps[0]) && Run(Apply(s, steps[0]), steps[1..], t)
  }

  // ---------------------------------------------------------------------------------------------
  // The invariant
  // ---------------------------------------------------------------------------------------------

  type Histories = map<EventId, History>

  /** The snapshot is the row some earlier write of this event left behind. */
  predicate Known(h: Histories, e: Event) {
    && e.id in h
    && 0 < e.version <= |h[e.id]|
    && h[e.id][e.version - 1].row == e
  }

  /** The row is the last one of its event's lineage. */
  ghost predicate HistoryOk(rows: Rows, h: Histories, now: Time, id: EventId) {
    && id in h && id in rows
    && IsLineage(id, h[id])
    && Last(h[id]).row == rows[id]
    && Last(h[id]).at <= now
  }

  predicate CreatorPayload(h: Histories, id: EventId, p: string) {
    id in h && |h[id]| > 0 && h[id][0].cause.Publication? && h[id][0].cause.request.payload == p
  }

  /** What a message for the event may carry: the creator's payload, or the stand-in when none was stored yet. */
  predicate MessagePayload(h: Histories, id: EventId, p: string) {
    p == "{}" || CreatorPayload(h, id, p)
  }

  /** The time an operation read before deciding lies between its snapshot's commit and now. */
  predicate JudgedAfter(h: Histories, now: Time, e: Event, t: Time) {
    Known(h, e) && h[e.id][e.version - 1].at <= t <= now
  }

  predicate OpOk(h: Histories, now: Time, o: Op) {
    match o
    case Publishing(_) => true
    case Initiating(_, _, cfg, at, _) => ValidConfig(cfg) && at <= now
    case Inserted(id, payload, _) => CreatorPayload(h, id, payload)
    case Found(finder, e) => Known(h, e) && FoundBy(finder, e)
    case Loaded(purpose, e) => Known(h, e) && (purpose.ForPermit? ==> purpose.msg.id == e.id)
    case Retrying(cfg, judgedAt, e) => ValidConfig(cfg) && RetriesRemain(e, judgedAt)
        && JudgedAfter(h, now, e, judgedAt)
    case Committing(cause, e) =>
      Known(h, e) && Permissible(e, cause)
      && (cause.Switch? || cause.Failure? || cause.Permit? ==> JudgedAfter(h, now, e, JudgedAt(cause, now)))
      && (cause.Switch? ==> cause.at <= now)
    case Sending(e, body) =>
      Known(h, e) && e.version < |h[e.id]| && h[e.id][e.version].cause.Dispatch?
      && (body.Some? ==> MessagePayload(h, e.id, body.value))
    case Holding(_) => true
    case OnFailing(e) => Known(h, e)
  }

  /** The parts of a message that name the event. */
  predicate Describes(m: Message, e: Event) {
    m.subject == "event-engine." + ToLower(e.eventType) && m.id == e.id
    && m.eventType == e.eventType && m.flowType == e.flowType && m.flowId == e.flowId
  }

  /** A published message belongs to one committed dispatch and carries that event's data and payload. */
  predicate SentOk(h: Histories, m: Sent) {
    var id := m.msg.id;
    && id in h
    && 0 < m.version < |h[id]|
    && h[id][m.version].cause.Dispatch?
    && Describes(m.msg, h[id][m.version - 1].row)
    && h[id][m.version - 1].row.eventProcessingDueDate.Some?
    && m.at < h[id][m.version - 1].row.eventProcessingDueDate.value
    && MessagePayload(h, id, m.msg.payload)
  }

  ghost predicate HistoriesOk(rows: Rows, h: Histories, now: Time) {
    && rows.Keys == h.Keys
    && forall id :: id in h ==> HistoryOk(rows, h, now, id)
  }

  ghost predicate OpsOk(h: Histories, now: Time, ops: map<OpId, Op>) {
    forall op :: op in ops ==> OpOk(h, now, ops[op])
  }

  ghost predicate BrokerOk(h: Histories, sent: seq<Sent>) {
    forall i :: 0 <= i < |sent| ==> SentOk(h, sent[i])
  }

  ghost predicate PayloadsOk(h: Histories, payloads: map<EventId, string>) {
    forall id :: id in payloads ==> CreatorPayload(h, id, payloads[id])
  }

  ghost predicate Inv(s: State) {
    && HistoriesOk(s.rows, s.history, s.now)
    && OpsOk(s.history, s.now, s.ops)
    && BrokerOk(s.history, s.sent)
    && PayloadsOk(s.history, s.payloads)
  }

  /** The history of every event only grows. */
  ghost predicate Grows(h: Histories, g: Histories) {
    forall id :: id in h ==> id in g && h[id] <= g[id]
  }

  lemma InitInv(now: Time)
    ensures Inv(Init(now))
  {
  }

  lemma OpIsOk(s: State, op: OpId)
    requires Inv(s) && op in s.ops
    ensures OpOk(s.history, s.now, s.ops[op])
  {
  }

  lemma RowOfHistory(rows: Rows, h: Histories, now: Time, id: EventId)
    requires HistoryOk(rows, h, now, id)
    ensures rows[id].id == id && rows[id].version == |h[id]|
    ensures Known(h, rows[id])
  {
    LineageIsLawful(id, h[id]);
  }

  /** An update that commits was computed from the very row it replaces, field by field. */
  lemma SnapshotIsCurrent(s: State, op: OpId)
    requires Inv(s) && Commits(s, op)
    ensures Known(s.history, s.ops[op].snap)
    ensures s.rows[s.ops[op].snap.id] == s.ops[op].snap
    ensures s.ops[op].snap.version == |s.history[s.ops[op].snap.id]|
  {
    var e := s.ops[op].snap;
    assert OpOk(s.history, s.now, s.ops[op]);
    RowOfHistory(s.rows, s.history, s.now, e.id);
  }

  lemma OpsStay(h: Histories, g: Histories, t: Time, u: Time, ops: map<OpId, Op>)
    requires OpsOk(h, t, ops) && Grows(h, g) && t <= u
    ensures OpsOk(g, u, ops)
  {
    forall op | op in ops ensures OpOk(g, u, ops[op]) {
      assert OpOk(h, t, ops[op]);
    }
  }

  lemma BrokerStays(h: Histories, g: Histories, sent: seq<Sent>)
    requires BrokerOk(h, sent) && Grows(h, g)
    ensures BrokerOk(g, sent)
  {
    forall i | 0 <= i < |sent| ensures SentOk(g, sent[i]) {
      assert SentOk(h, sent[i]);
    }
  }

  lemma PayloadsStay(h: Histories, g: Histories, payloads: map<EventId, string>)
    requires PayloadsOk(h, payloads) && Grows(h, g)
    ensures PayloadsOk(g, payloads)
  {
    forall id | id in payloads ensures CreatorPayload(g, id, payloads[id]) {
      assert CreatorPayload(h, id, payloads[id]);
    }
  }

  lemma OpMoves(h: Histories, now: Time, ops: map<OpId, Op>, op: OpId, o: Option<Op>)
    requires OpsOk(h, now, ops) && (o.Some? ==> OpOk(h, now, o.value))
    ensures OpsOk(h, now, WithOp(ops, op, o))
  {
  }

  lemma ExtendLineage(id: EventId, h: History, n: Entry)
    requires IsLineage(id, h) && Follows(Last(h), n)
    ensures IsLineage(id, h + [n])
  {
    var g := h + [n];
    forall k | 0 < k < |g| ensures Follows(g[k - 1], g[k]) {
      if k < |h| {
        assert Follows(h[k - 1], h[k]);
      }
    }
  }

  lemma {:induction false} EntriesAreOrdered(id: EventId, h: History, k: nat)
    requires IsLineage(id, h) && k < |h|
    ensures h[k].at <= Last(h).at
    decreases |h| - k
  {
    if k < |h| - 1 {
      assert Follows(h[k], h[k + 1]);
      EntriesAreOrdered(id, h, k + 1);
    }
  }

  lemma CommandTargetsSnapshot(e: Event, c: Cause)
    requires Permissible(e, c)
    ensures CommandOf(e, c).id == e.id && CommandOf(e, c).version == e.version
  {
  }

  // ---------------------------------------------------------------------------------------------
  // Every step keeps the invariant
  // ---------------------------------------------------------------------------------------------

  /** The entry a committing operation appends. */
  function NewEntry(o: Op, stamp: Time, now: Time): Entry
    requires o.Committing? && Permissible(o.snap, o.cause)
  {
    Entry(o.cause, UpdatedRow(o.snap, CommandOf(o.snap, o.cause), stamp), stamp, now)
  }

  /** A committed update replaces one row and appends one entry to that event's history. */
  lemma CommitShape(s: State, op: OpId, stamp: Time)
    requires Inv(s) && Commits(s, op)
    ensures var o := s.ops[op]; var id := o.snap.id; var n := NewEntry(o, stamp, s.now);
            id in s.history && id in s.rows &&
            ApplyAttempt(s, op, stamp) ==
            s.(rows := s.rows[id := n.row], history := s.history[id := s.history[id] + [n]],
               ops := WithOp(s.ops, op, AfterCommit(o.cause, o.snap)))
  {
    CommandTargetsSnapshot(s.ops[op].snap, s.ops[op].cause);
    SnapshotIsCurrent(s, op);
  }

  lemma NewEntryFollows(s: State, op: OpId, stamp: Time)
    requires Inv(s) && Commits(s, op)
    ensures s.ops[op].snap.id in s.history && |s.history[s.ops[op].snap.id]| > 0
    ensures Follows(Last(s.history[s.ops[op].snap.id]), NewEntry(s.ops[op], stamp, s.now))
  {
    var o := s.ops[op];
    SnapshotIsCurrent(s, op);
    assert OpOk(s.history, s.now, o);
    assert HistoryOk(s.rows, s.history, s.now, o.snap.id);
    assert Last(s.history[o.snap.id]).row == o.snap;
  }

  lemma OneHistoryGrows(h: Histories, id: EventId, g: History)
    requires id in h ==> h[id] <= g
    ensures Grows(h, h[id := g])
  {
  }

  lemma HistoriesExtend(rows: Rows, h: Histories, now: Time, id: EventId, n: Entry)
    requires HistoriesOk(rows, h, now) && id in h && Follows(Last(h[id]), n) && n.at == now
    ensures HistoriesOk(rows[id := n.row], h[id := h[id] + [n]], now)
  {
    assert HistoryOk(rows, h, now, id);
    ExtendLineage(id, h[id], n);
    forall i | i in h ensures HistoryOk(rows[id := n.row], h[id := h[id] + [n]], now, i) {
      assert HistoryOk(rows, h, now, i);
    }
  }

  lemma AfterCommitOk(h: Histories, now: Time, o: Op, g: Histories)
    requires o.Committing? && Known(h, o.snap) && Grows(h, g)
    requires o.snap.id in g && o.snap.version < |g[o.snap.id]| && g[o.snap.id][o.snap.version].cause == o.cause
    ensures var a := AfterCommit(o.cause, o.snap); a.Some? ==> OpOk(g, now, a.value)
  {
  }

  lemma AttemptKeepsInv(s: State, op: OpId, stamp: Time)
    requires Inv(s) && Enabled(s, Attempt(op, stamp))
    ensures Inv(ApplyAttempt(s, op, stamp)) && Grows(s.history, ApplyAttempt(s, op, stamp).history)
  {
    if Commits(s, op) {
      var o := s.ops[op];
      var n := NewEntry(o, stamp, s.now);
      SnapshotIsCurrent(s, op);
      CommitShape(s, op, stamp);
      NewEntryFollows(s, op, stamp);
      HistoriesExtend(s.rows, s.history, s.now, o.snap.id, n);
      OneHistoryGrows(s.history, o.snap.id, s.history[o.snap.id] + [n]);
      var g := s.history[o.snap.id := s.history[o.snap.id] + [n]];
      OpsStay(s.history, g, s.now, s.now, s.ops);
      AfterCommitOk(s.history, s.now, o, g);
      OpMoves(g, s.now, s.ops, op, AfterCommit(o.cause, o.snap));
      BrokerStays(s.history, g, s.sent);
      PayloadsStay(s.history, g, s.payloads);
    }
  }

  function FirstEntry(o: Op, stamp: Time, now: Time): Entry
    requires o.Initiating? && ValidConfig(o.cfg)
  {
    Entry(Publication(o.request, o.cfg, o.at), InsertedRow(InitiationFor(o.id, o.request, o.cfg, o.at), stamp),
        stamp, now)
  }

  lemma HistoriesStart(rows: Rows, h: Histories, now: Time, id: EventId, n: Entry)
    requires HistoriesOk(rows, h, now) && id !in h && IsOrigin(id, n) && n.at == now
    ensures HistoriesOk(rows[id := n.row], h[id := [n]], now)
    ensures Grows(h, h[id := [n]])
  {
    var g := h[id := [n]];
    forall i | i in g ensures HistoryOk(rows[id := n.row], g, now, i) {
      if i != id {
        assert HistoryOk(rows, h, now, i);
      }
    }
  }

  lemma InsertKeepsInv(s: State, op: OpId, stamp: Time)
    requires Inv(s) && Enabled(s, InsertRow(op, stamp))
    ensures Inv(ApplyInsert(s, op, stamp)) && Grows(s.history, ApplyInsert(s, op, stamp).history)
  {
    var o := s.ops[op];
    assert OpOk(s.history, s.now, o);
    if o.id in s.rows {
      OpMoves(s.history, s.now, s.ops, op, Some(Publishing(o.rest)));
    } else {
      var n := FirstEntry(o, stamp, s.now);
      var g := s.history[o.id := [n]];
      HistoriesStart(s.rows, s.history, s.now, o.id, n);
      OpsStay(s.history, g, s.now, s.now, s.ops);
      OpMoves(g, s.now, s.ops, op, Some(Inserted(o.id, o.request.payload, o.rest)));
      BrokerStays(s.history, g, s.sent);
      PayloadsStay(s.history, g, s.payloads);
    }
  }

  lemma MessageOk(h: Histories, now: Time, o: Op, at: Time, publishedAt: Time)
    requires OpOk(h, now, o) && o.Sending? && o.body.Some?
    requires Dispatcher.Dispatched(o.snap, o.body.value, at, publishedAt).Published?
    ensures SentOk(h, Sent(Dispatcher.Dispatched(o.snap, o.body.value, at, publishedAt).msg, o.snap.version, at))
  {
  }

  lemma BrokerAppends(h: Histories, sent: seq<Sent>, m: Sent)
    requires BrokerOk(h, sent) && SentOk(h, m)
    ensures BrokerOk(h, sent + [m])
  {
  }

  lemma SendKeepsInv(s: State, op: OpId, publishedAt: Time)
    requires Inv(s) && Enabled(s, Send(op, publishedAt))
    ensures Inv(Apply(s, Send(op, publishedAt)))
  {
    OpIsOk(s, op);
    var o := s.ops[op];
    var m := Sent(Dispatcher.Dispatched(o.snap, o.body.value, s.now, publishedAt).msg, o.snap.version, s.now);
    MessageOk(s.history, s.now, o, s.now, publishedAt);
    BrokerAppends(s.history, s.sent, m);
    OpMoves(s.history, s.now, s.ops, op, None);
  }

  lemma SavePayloadKeepsInv(s: State, op: OpId)
    requires Inv(s) && Enabled(s, SavePayload(op))
    ensures Inv(Apply(s, SavePayload(op)))
  {
    assert OpOk(s.history, s.now, s.ops[op]);
    OpMoves(s.history, s.now, s.ops, op, Some(Publishing(s.ops[op].rest)));
  }

  lemma TickKeepsInv(s: State, to: Time)
    requires Inv(s) && s.now <= to
    ensures Inv(s.(now := to))
  {
    OpsStay(s.history, s.history, s.now, to, s.ops);
    forall id | id in s.history ensures HistoryOk(s.rows, s.history, to, id) {
      assert HistoryOk(s.rows, s.history, s.now, id);
    }
  }

  /** Steps that change nothing but one operation's own progress. */
  predicate Private(step: Step) {
    !step.InsertRow? && !step.Attempt? && !step.Send? && !step.SavePayload? && !step.Tick?
  }

  /** Where a private step takes its operation. */
  function Progress(s: State, step: Step): Option<Op>
    requires Enabled(s, step) && Private(step)
  {
    var t := Apply(s, step);
    if step.op in t.ops then Some(t.ops[step.op]) else None
  }

  lemma PrivateStepShape(s: State, step: Step)
    requires Enabled(s, step) && Private(step)
    ensures Apply(s, step) == s.(ops := WithOp(s.ops, step.op, Progress(s, step)))
  {
  }

  lemma KnownInPast(s: State, e: Event)
    requires Inv(s) && Known(s.history, e)
    ensures s.history[e.id][e.version - 1].at <= s.now
  {
    assert HistoryOk(s.rows, s.history, s.now, e.id);
    EntriesAreOrdered(e.id, s.history[e.id], e.version - 1);
  }

  lemma DecidedOk(h: Histories, now: Time, o: Op, cfg: Config)
    requires OpOk(h, now, o) && (o.Found? || o.Loaded?) && ValidConfig(cfg)
    requires Known(h, o.snap) && h[o.snap.id][o.snap.version - 1].at <= now
    ensures var d := Decided(o, cfg, now); d.Some? ==> OpOk(h, now, d.value)
  {
  }

  lemma LoadOk(s: State, id: EventId)
    requires Inv(s) && id in s.rows
    ensures Known(s.history, s.rows[id]) && s.rows[id].id == id
  {
    assert HistoryOk(s.rows, s.history, s.now, id);
    RowOfHistory(s.rows, s.history, s.now, id);
  }

  predicate IsLoad(step: Step) {
    step.FindEvent? || step.LoadForPermit? || step.ReportHeld? || step.ReportUnasked?
  }

  function LoadedId(s: State, step: Step): EventId
    requires Enabled(s, step) && IsLoad(step)
  {
    match step
    case FindEvent(_, id, _) => id
    case LoadForPermit(_, msg) => msg.id
    case ReportHeld(op, _) => s.ops[op].msg.id
    case ReportUnasked(_, id, _) => id
  }

  lemma LoadStepOk(s: State, step: Step)
    requires Enabled(s, step) && IsLoad(step)
    requires var id := LoadedId(s, step); Known(s.history, s.rows[id]) && s.rows[id].id == id
    ensures var o := Progress(s, step); o.Some? && OpOk(s.history, s.now, o.value)
  {
  }

  lemma DecideStepShape(s: State, op: OpId, cfg: Config)
    requires Enabled(s, Decide(op, cfg))
    ensures Progress(s, Decide(op, cfg)) == Decided(s.ops[op], cfg, s.now)
  {
  }

  lemma ProgressOk(s: State, step: Step)
    requires Inv(s) && Enabled(s, step) && Private(step)
    ensures var o := Progress(s, step); o.Some? ==> OpOk(s.history, s.now, o.value)
  {
    if IsLoad(step) {
      LoadOk(s, LoadedId(s, step));
      LoadStepOk(s, step);
    } else if step.Decide? {
      DecideStepOk(s, step.op, step.cfg);
    } else {
      InternalStepOk(s, step);
    }
  }

  lemma DecisionOk(s: State, op: OpId, cfg: Config)
    requires Inv(s) && op in s.ops && (s.ops[op].Found? || s.ops[op].Loaded?) && ValidConfig(cfg)
    ensures var d := Decided(s.ops[op], cfg, s.now); d.Some? ==> OpOk(s.history, s.now, d.value)
  {
    OpIsOk(s, op);
    KnownInPast(s, s.ops[op].snap);
    DecidedOk(s.history, s.now, s.ops[op], cfg);
  }

  lemma DecideStepOk(s: State, op: OpId, cfg: Config)
    requires Inv(s) && Enabled(s, Decide(op, cfg))
    ensures var o := Progress(s, Decide(op, cfg)); o.Some? ==> OpOk(s.history, s.now, o.value)
  {
    DecideStepShape(s, op, cfg);
    DecisionOk(s, op, cfg);
  }

  /** Steps that only rearrange what their operation already holds. */
  lemma RearrangedOk(s: State, step: Step)
    requires Enabled(s, step) && Private(step) && !IsLoad(step) && !step.Decide? && !step.LoadSendPayload?
    requires step.op in s.ops ==> OpOk(s.history, s.now, s.ops[step.op])
    ensures var o := Progress(s, step); o.Some? ==> OpOk(s.history, s.now, o.value)
  {
  }

  lemma LoadedPayloadOk(s: State, op: OpId)
    requires PayloadsOk(s.history, s.payloads) && Enabled(s, LoadSendPayload(op)) && OpOk(s.history, s.now, s.ops[op])
    ensures var o := Progress(s, LoadSendPayload(op)); o.Some? && OpOk(s.history, s.now, o.value)
  {
  }

  lemma InternalStepOk(s: State, step: Step)
    requires Inv(s) && Enabled(s, step) && Private(step) && !IsLoad(step) && !step.Decide?
    ensures var o := Progress(s, step); o.Some? ==> OpOk(s.history, s.now, o.value)
  {
    if step.op in s.ops {
      OpIsOk(s, step.op);
    }
    if step.LoadSendPayload? {
      LoadedPayloadOk(s, step.op);
    } else {
      RearrangedOk(s, step);
    }
  }

  lemma PrivateStepKeepsInv(s: State, step: Step)
    requires Inv(s) && Enabled(s, step) && Private(step)
    ensures Inv(Apply(s, step)) && Grows(s.history, Apply(s, step).history)
  {
    PrivateStepShape(s, step);
    ProgressOk(s, step);
    OpMoves(s.history, s.now, s.ops, step.op, Progress(s, step));
  }

  lemma SharedStepKeepsInv(s: State, step: Step)
    requires Inv(s) && Enabled(s, step) && !Private(step)
    ensures Inv(Apply(s, step))
  {
    if step.InsertRow? {
      InsertKeepsInv(s, step.op, step.stamp);
    } else if step.Attempt? {
      AttemptKeepsInv(s, step.op, step.stamp);
    } else if step.Send? {
      SendKeepsInv(s, step.op, step.publishedAt);
    } else if step.SavePayload? {
      SavePayloadKeepsInv(s, step.op);
    } else {
      TickKeepsInv(s, step.to);
    }
  }

  lemma StepKeepsInv(s: State, step: Step)
    requires Inv(s) && Enabled(s, step)
    ensures Inv(Apply(s, step))
  {
    if Private(step) {
      PrivateStepKeepsInv(s, step);
    } else {
      SharedStepKeepsInv(s, step);
    }
  }

  lemma TimeAdvances(s: State, step: Step)
    requires Enabled(s, step)
    ensures s.now <= Apply(s, step).now
    ensures !step.InsertRow? && !step.Attempt? ==> Apply(s, step).history == s.history
  {
  }

  /** Histories change only through the two steps that write the event table. */
  lemma HistoryStepGrows(s: State, step: Step)
    requires Enabled(s, step)
    requires step.InsertRow? ==> Grows(s.history, ApplyInsert(s, step.op, step.stamp).history)
    requires step.Attempt? ==> Grows(s.history, ApplyAttempt(s, step.op, step.stamp).history)
    ensures Grows(s.history, Apply(s, step).history)
  {
  }

  lemma StepGrows(s: State, step: Step)
    requires Inv(s) && Enabled(s, step)
    ensures Grows(s.history, Apply(s, step).history) && s.now <= Apply(s, step).now
  {
    if step.InsertRow? {
      InsertKeepsInv(s, step.op, step.stamp);
    } else if step.Attempt? {
      AttemptKeepsInv(s, step.op, step.stamp);
    }
    TimeAdvances(s, step);
    HistoryStepGrows(s, step);
  }

  // ---------------------------------------------------------------------------------------------
  // Whole runs
  // ---------------------------------------------------------------------------------------------

  ghost predicate Reachable(s: State) {
    exists now, steps {:trigger Run(Init(now), steps, s)} :: Run(Init(now), steps, s)
  }

  lemma {:induction false} RunKeepsInv(s: State, steps: seq<Step>, t: State)
    requires Inv(s) && Run(s, steps, t)
    ensures Inv(t) && Grows(s.history, t.history) && s.now <= t.now
    decreases |steps|
  {
    if steps == [] {
    } else {
      var m := Apply(s, steps[0]);
      StepKeepsInv(s, steps[0]);
      StepGrows(s, steps[0]);
      RunKeepsInv(m, steps[1..], t);
      forall id | id in s.history ensures id in t.history && s.history[id] <= t.history[id] {
        assert id in m.history && s.history[id] <= m.history[id];
      }
    }
  }

  lemma ReachableInv(s: State)
    requires Reachable(s)
    ensures Inv(s)
  {
    var now, steps :| Run(Init(now), steps, s);
    InitInv(now);
    RunKeepsInv(Init(now), steps, s);
  }

  /**
   * Every interleaving of stale readers leaves each event with a history in which every write was decided from
   * the row directly before it, and whose last row is the stored one.
   */
  lemma EveryHistoryIsSequential(s: State, id: EventId)
    requires Reachable(s) && id in s.rows
    ensures id in s.history && IsLineage(id, s.history[id]) && Last(s.history[id]).row == s.rows[id]
  {
    ReachableInv(s);
    assert HistoryOk(s.rows, s.history, s.now, id);
  }

  /** The laws of a lineage, for the stored row of any event in any reachable state. */
  lemma ReachableRowsAreLawful(s: State, id: EventId)
    requires Reachable(s) && id in s.rows
    ensures id in s.history && IsLineage(id, s.history[id])
    ensures var e, t, m := s.rows[id], TallyOf(s.history[id]), Budget(s.history[id]);
            Balanced(m, t, e) && StatesAgree(e) &&
            t.permits <= m && t.switches <= m - 1 && t.reactivations <= m && t.awaiting <= m
  {
    EveryHistoryIsSequential(s, id);
    LineageIsLawful(id, s.history[id]);
  }

  /** The finders therefore hand out only events their jobs can handle. */
  lemma FindersSeeOnlyQueuedEvents(s: State, op: OpId)
    requires Reachable(s) && op in s.ops && s.ops[op].Found?
    ensures var e := s.ops[op].snap;
            (s.ops[op].finder == ScheduledFinder ==> e.status == AwaitingProcessing || e.status == Dispatched) &&
            (s.ops[op].finder == ExpiredSuspendedFinder ==> e.status == AwaitingProcessing)
  {
    ReachableInv(s);
    var e := s.ops[op].snap;
    OpIsOk(s, op);
    assert HistoryOk(s.rows, s.history, s.now, e.id);
    StatesAlwaysAgree(e.id, s.history[e.id], e.version - 1);
  }

  /** Once an event was marked as failed, whatever runs next commits only terminal reports for it. */
  lemma NothingRevivesAFailedEvent(s: State, steps: seq<Step>, t: State, op: OpId, i: nat)
    requires Reachable(s) && Run(s, steps, t) && Commits(t, op)
    requires var id := t.ops[op].snap.id; id in s.history && i < |s.history[id]| && s.history[id][i].cause.Failure?
    ensures t.ops[op].cause.Success? || t.ops[op].cause.Failure?
  {
    ReachableInv(s);
    RunKeepsInv(s, steps, t);
    var o := t.ops[op];
    var h := t.history[o.snap.id];
    NewEntryFollows(t, op, 0);
    assert HistoryOk(t.rows, t.history, t.now, o.snap.id);
    ExtendLineage(o.snap.id, h, NewEntry(o, 0, t.now));
    FailureIsFinal(o.snap.id, h + [NewEntry(o, 0, t.now)], i, |h|);
  }

  /** A commit replaces exactly the snapshot it was computed from; in particular its version. */
  lemma CommitReplacesItsSnapshot(s: State, op: OpId)
    requires Reachable(s) && Commits(s, op)
    ensures s.rows[s.ops[op].snap.id] == s.ops[op].snap
  {
    ReachableInv(s);
    SnapshotIsCurrent(s, op);
  }

  /** Two commits for one event in one run never carry the same version: later ones carry a larger. */
  lemma OneCommitPerVersion(s: State, first: OpId, stamp: Time, steps: seq<Step>, t: State, second: OpId)
    requires Reachable(s) && Commits(s, first) && Run(Apply(s, Attempt(first, stamp)), steps, t) && Commits(t, second)
    requires s.ops[first].snap.id == t.ops[second].snap.id
    ensures s.ops[first].snap.version < t.ops[second].snap.version
  {
    ReachableInv(s);
    AttemptKeepsInv(s, first, stamp);
    CommitShape(s, first, stamp);
    SnapshotIsCurrent(s, first);
    RunKeepsInv(Apply(s, Attempt(first, stamp)), steps, t);
    SnapshotIsCurrent(t, second);
  }

  /** An operation whose snapshot is stale can never commit, however long it retries and whatever happens meanwhile. */
  lemma StaleNeverCommits(s: State, steps: seq<Step>, t: State, e: Event, op: OpId)
    requires Reachable(s) && e.id in s.rows && e.version < s.rows[e.id].version && Run(s, steps, t)
    requires op in t.ops && t.ops[op].Committing? && t.ops[op].snap == e
    ensures !Commits(t, op)
  {
    ReachableInv(s);
    assert HistoryOk(s.rows, s.history, s.now, e.id);
    RowOfHistory(s.rows, s.history, s.now, e.id);
    RunKeepsInv(s, steps, t);
    assert s.history[e.id] <= t.history[e.id];
    assert HistoryOk(t.rows, t.history, t.now, e.id);
    RowOfHistory(t.rows, t.history, t.now, e.id);
    CommandTargetsSnapshot(e, t.ops[op].cause) by { OpIsOk(t, op); }
  }

  /** The creator's payload is the only one ever stored or sent for an event; a message without it carries "{}". */
  lemma PayloadIsWriteOnce(s: State, id: EventId)
    requires Reachable(s)
    ensures id in s.payloads ==> CreatorPayload(s.history, id, s.payloads[id])
    ensures forall i :: 0 <= i < |s.sent| && s.sent[i].msg.id == id ==>
              MessagePayload(s.history, id, s.sent[i].msg.payload)
  {
    ReachableInv(s);
    forall i | 0 <= i < |s.sent| && s.sent[i].msg.id == id
      ensures MessagePayload(s.history, id, s.sent[i].msg.payload)
    {
      assert SentOk(s.history, s.sent[i]);
    }
  }

  lemma InsertLeavesRow(s: State, op: OpId, stamp: Time)
    requires Enabled(s, InsertRow(op, stamp))
    ensures s.ops[op].id in Apply(s, InsertRow(op, stamp)).rows
    ensures s.ops[op].id in s.rows ==>
              var t := Apply(s, InsertRow(op, stamp));
              t.rows == s.rows && t.payloads == s.payloads && t.history == s.history && !t.ops[op].Inserted?
  {
  }

  /**
   * After one call initiated an event, no later call for it creates a row, changes one, or goes on to save a
   * payload.
   */
  lemma OnlyOneInitiationCreates(s: State, first: OpId, stamp: Time, steps: seq<Step>, t: State, second: OpId,
                                 later: Time)
    requires Reachable(s) && Enabled(s, InsertRow(first, stamp)) && Run(Apply(s, InsertRow(first, stamp)), steps, t)
    requires Enabled(t, InsertRow(second, later)) && t.ops[second].id == s.ops[first].id
    ensures var u := Apply(t, InsertRow(second, later));
            u.rows == t.rows && u.payloads == t.payloads && u.history == t.history && !u.ops[second].Inserted?
  {
    ReachableInv(s);
    InsertLeavesRow(s, first, stamp);
    var m := Apply(s, InsertRow(first, stamp));
    StepKeepsInv(s, InsertRow(first, stamp));
    assert HistoryOk(m.rows, m.history, m.now, s.ops[first].id);
    RunKeepsInv(m, steps, t);
    assert s.ops[first].id in t.rows.Keys;
    InsertLeavesRow(t, second, later);
  }

  /** The creator never changes: what it recorded at the start of the history stays there. */
  lemma CreatorIsForever(s: State, steps: seq<Step>, t: State, id: EventId, p: string)
    requires Reachable(s) && Run(s, steps, t) && CreatorPayload(s.history, id, p)
    ensures forall q :: CreatorPayload(t.history, id, q) <==> q == p
    ensures id in t.payloads ==> t.payloads[id] == p
  {
    ReachableInv(s);
    RunKeepsInv(s, steps, t);
    assert s.history[id] <= t.history[id];
    assert t.history[id][0] == s.history[id][0];
  }

  /** Every message passed its expiry test before its event's due date. */
  lemma EveryMessageIsInTime(s: State, i: nat)
    requires Reachable(s) && i < |s.sent|
    ensures var id := s.sent[i].msg.id;
            id in s.rows && s.rows[id].eventProcessingDueDate.Some? &&
            s.sent[i].at < s.rows[id].eventProcessingDueDate.value
  {
    ReachableInv(s);
    var m := s.sent[i];
    assert SentOk(s.history, m);
    assert HistoryOk(s.rows, s.history, s.now, m.msg.id);
    LawfulThroughout(m.msg.id, s.history[m.msg.id], m.version);
    LineageIsLawful(m.msg.id, s.history[m.msg.id]);
  }

  /** What each finder can hand out, and when: exactly these rows. */
  lemma FindersFindWhatIsDue(s: State, op: OpId, id: EventId, finder: Finder)
    requires op !in s.ops && id in s.rows
    ensures Enabled(s, FindEvent(op, id, finder)) <==>
            var e := s.rows[id];
            match finder
            case PendingFinder => e.status == AwaitingProcessing && e.createdAt <= s.now
            case ScheduledFinder =>
              e.scheduleState == Active && e.attemptScheduledAt.Some? && e.attemptScheduledAt.value <= s.now
            case ExpiredSuspendedFinder =>
              e.scheduleState == Sleeping && e.attemptScheduledAt.Some? && e.attemptScheduledAt.value <= s.now
  {
  }

  /** An operation that is to publish on a failure asks for the on-fail type, in the failed event's flow. */
  lemma OnFailAsksFor(s: State, op: OpId)
    requires op in s.ops && s.ops[op].OnFailing? && s.ops[op].snap.onFailEventType.Some?
    ensures Enabled(s, LoadOnFailPayload(op))
    ensures var e := s.ops[op].snap; var t := Apply(s, LoadOnFailPayload(op));
            t == s.(ops := t.ops) && op in t.ops && t.ops[op].Publishing? && |t.ops[op].requests| == 1 &&
            var r := t.ops[op].requests[0];
            r.eventType == e.onFailEventType.value && r.flowType == e.flowType && r.flowId == e.flowId &&
            r.onFailEventType == None && r.payload == (if e.id in s.payloads then s.payloads[e.id] else "")
  {
  }

  /** A committed failure of an event that names an on-fail type leads there; one that names none ends. */
  lemma FailureLeadsToOnFail(s: State, op: OpId, stamp: Time)
    requires Commits(s, op) && s.ops[op].cause.Failure?
    ensures var e := s.ops[op].snap; var t := Apply(s, Attempt(op, stamp));
            if e.onFailEventType.Some?
            then op in t.ops && t.ops[op] == OnFailing(e) && Enabled(t, LoadOnFailPayload(op))
            else op !in t.ops
  {
  }

  /** A committed success leads to the publication of its spinoffs, in order, in the event's own flow. */
  lemma SuccessLeadsToSpinoffs(s: State, op: OpId, stamp: Time)
    requires Commits(s, op) && s.ops[op].cause.Success?
    ensures var e, sp := s.ops[op].snap, s.ops[op].cause.spinoffs; var t := Apply(s, Attempt(op, stamp));
            op in t.ops && t.ops[op].Publishing? && |t.ops[op].requests| == |sp| &&
            forall i :: 0 <= i < |sp| ==>
              t.ops[op].requests[i] ==
              PublishRequest(sp[i].eventType, e.flowType, e.flowId, sp[i].payload, sp[i].onFailEventType)
  {
  }
}
