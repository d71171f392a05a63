/**
 * What the engine gains when every report comes from an adapter run that was granted the permit and reports once.
 * The adapter acquires, then holds the permit, then makes its one report; nobody reports unasked.
 */
module AdapterContract {
  import opened EventModel
  import opened EventStore
  import opened Decisions
  import opened Lineage
  import opened Protocol

  /** Steps an engine with well-behaved adapters takes. */
  predicate InContract(step: Step) {
    !step.ReportUnasked?
  }

  ghost predicate ContractRun(s: State, steps: seq<Step>, t: State) {
    Run(s, steps, t) && forall i :: 0 <= i < |steps| ==> InContract(steps[i])
  }

  ghost predicate ContractReachable(s: State) {
    exists now, steps {:trigger ContractRun(Init(now), steps, s)} :: ContractRun(Init(now), steps, s)
  }

  predicate IsReport(c: Cause) {
    c.Success? || c.Failure? || c.Switch?
  }

  /** The event an adapter run holds the permit of: from the grant until its report is through. */
  function HeldBy(o: Op): Option<EventId> {
    match o
    case Holding(msg) => Some(msg.id)
    case Loaded(purpose, e) => if purpose.ForPermit? then None else Some(e.id)
    case Retrying(_, _, e) => Some(e.id)
    case Committing(cause, e) => if IsReport(cause) then Some(e.id) else None
    case _ => None
  }

  predicate Terminal(s: Status) {
    s == Processed || s == Failed
  }

  ghost predicate HolderOk(rows: Rows, o: Op) {
    HeldBy(o).Some? ==>
      HeldBy(o).value in rows && rows[HeldBy(o).value].status == BeingProcessed
      && (!o.Holding? ==> rows[o.snap.id] == o.snap)
  }

  /** At most one holder for an event, and only while it is being processed. */
  ghost predicate HoldersOk(rows: Rows, ops: map<OpId, Op>) {
    && (forall op :: op in ops ==> HolderOk(rows, ops[op]))
    && (forall a, b :: a in ops && b in ops && a != b && HeldBy(ops[a]).Some? ==> HeldBy(ops[a]) != HeldBy(ops[b]))
  }

  lemma InitHoldersOk(now: Time)
    ensures HoldersOk(Init(now).rows, Init(now).ops)
  {
  }

  lemma OpMovesHolders(rows: Rows, ops: map<OpId, Op>, op: OpId, o: Option<Op>)
    requires HoldersOk(rows, ops)
    requires o.Some? && HeldBy(o.value).Some? ==>
               HolderOk(rows, o.value) && (forall a :: a in ops && a != op ==> HeldBy(ops[a]) != HeldBy(o.value))
    ensures HoldersOk(rows, WithOp(ops, op, o))
  {
  }

  /** A row nobody holds may change freely. */
  lemma UnheldRowChanges(rows: Rows, ops: map<OpId, Op>, id: EventId, e: Event)
    requires HoldersOk(rows, ops) && forall a :: a in ops ==> HeldBy(ops[a]) != Some(id)
    ensures HoldersOk(rows[id := e], ops)
  {
    forall a | a in ops ensures HolderOk(rows[id := e], ops[a]) {
      assert HolderOk(rows, ops[a]);
    }
  }

  lemma RowStates(s: State, id: EventId)
    requires Inv(s) && id in s.rows
    ensures StatesAgree(s.rows[id])
  {
    assert HistoryOk(s.rows, s.history, s.now, id);
    LineageIsLawful(id, s.history[id]);
  }

  lemma ProcessedRowNeedsReport(e: Event, c: Cause)
    requires Permissible(e, c) && StatesAgree(e) && e.status == BeingProcessed
    ensures IsReport(c)
  {
  }

  lemma HolderIsOk(rows: Rows, ops: map<OpId, Op>, op: OpId)
    requires HoldersOk(rows, ops) && op in ops
    ensures HolderOk(rows, ops[op])
  {
  }

  lemma HolderIsUnique(rows: Rows, ops: map<OpId, Op>, a: OpId, b: OpId)
    requires HoldersOk(rows, ops) && a in ops && b in ops && HeldBy(ops[a]).Some? && HeldBy(ops[a]) == HeldBy(ops[b])
    ensures a == b
  {
  }

  /** Whoever may update the current row of a held event is its holder. */
  lemma CommitterHolds(rows: Rows, ops: map<OpId, Op>, op: OpId, a: OpId)
    requires HoldersOk(rows, ops) && op in ops && ops[op].Committing? && Permissible(ops[op].snap, ops[op].cause)
    requires ops[op].snap.id in rows && rows[ops[op].snap.id] == ops[op].snap && StatesAgree(ops[op].snap)
    requires a in ops && HeldBy(ops[a]) == Some(ops[op].snap.id)
    ensures a == op
  {
    HolderIsOk(rows, ops, a);
    ProcessedRowNeedsReport(ops[op].snap, ops[op].cause);
    HolderIsUnique(rows, ops, a, op);
  }

  /** Only the holder can commit an update of a row that is being processed. */
  lemma OnlyHolderCommits(s: State, op: OpId, a: OpId)
    requires Inv(s) && HoldersOk(s.rows, s.ops) && Commits(s, op)
    requires a in s.ops && HeldBy(s.ops[a]) == Some(s.ops[op].snap.id)
    ensures a == op
  {
    SnapshotIsCurrent(s, op);
    RowStates(s, s.ops[op].snap.id);
    CommitterHolds(s.rows, s.ops, op, a);
  }

  /** The one operation concerned with an event may replace its row and move on. */
  lemma SoleOpReplacesRow(rows: Rows, ops: map<OpId, Op>, op: OpId, id: EventId, e: Event, o: Option<Op>)
    requires HoldersOk(rows, ops) && forall a :: a in ops && a != op ==> HeldBy(ops[a]) != Some(id)
    requires o.Some? && HeldBy(o.value).Some? ==> o.value.Holding? && o.value.msg.id == id && e.status == BeingProcessed
    ensures HoldersOk(rows[id := e], WithOp(ops, op, o))
  {
    OpMovesHolders(rows, ops, op, None);
    UnheldRowChanges(rows, ops - {op}, id, e);
    OpMovesHolders(rows[id := e], ops - {op}, op, o);
    assert WithOp(ops - {op}, op, o) == WithOp(ops, op, o);
  }

  lemma AfterCommitHolds(o: Op, stamp: Time, now: Time)
    requires o.Committing? && Permissible(o.snap, o.cause)
    ensures var a := AfterCommit(o.cause, o.snap);
            a.Some? && HeldBy(a.value).Some? ==>
              a.value.Holding? && a.value.msg.id == o.snap.id && NewEntry(o, stamp, now).row.status == BeingProcessed
  {
  }

  lemma CommitKeepsHolders(s: State, op: OpId, stamp: Time)
    requires Inv(s) && HoldersOk(s.rows, s.ops) && Commits(s, op)
    ensures HoldersOk(ApplyAttempt(s, op, stamp).rows, ApplyAttempt(s, op, stamp).ops)
  {
    var o := s.ops[op];
    forall a | a in s.ops && a != op ensures HeldBy(s.ops[a]) != Some(o.snap.id) {
      if HeldBy(s.ops[a]) == Some(o.snap.id) {
        OnlyHolderCommits(s, op, a);
      }
    }
    AfterCommitHolds(o, stamp, s.now);
    SoleOpReplacesRow(s.rows, s.ops, op, o.snap.id, NewEntry(o, stamp, s.now).row, AfterCommit(o.cause, o.snap));
    CommitShape(s, op, stamp);
  }

  /** A private step passes a permit on unchanged, or drops it; a report starts from the current row. */
  lemma ProgressKeepsHolding(s: State, step: Step)
    requires Enabled(s, step) && Private(step) && InContract(step)
    ensures var o := Progress(s, step);
            o.Some? && HeldBy(o.value).Some? ==>
              step.op in s.ops && HeldBy(s.ops[step.op]).Some? &&
              (step.ReportHeld? ==>
                 s.ops[step.op].Holding? && o.value == Loaded(step.purpose, s.rows[s.ops[step.op].msg.id])) &&
              (!step.ReportHeld? ==> HeldBy(o.value) == HeldBy(s.ops[step.op]) && o.value.snap == s.ops[step.op].snap
                                     && !o.value.Holding? && !s.ops[step.op].Holding?)
  {
  }

  lemma PrivateStepKeepsHolders(s: State, step: Step)
    requires Inv(s) && HoldersOk(s.rows, s.ops) && Enabled(s, step) && Private(step) && InContract(step)
    ensures HoldersOk(Apply(s, step).rows, Apply(s, step).ops)
  {
    PrivateStepShape(s, step);
    ProgressKeepsHolding(s, step);
    var o := Progress(s, step);
    if o.Some? && HeldBy(o.value).Some? {
      assert HolderOk(s.rows, s.ops[step.op]);
      if step.ReportHeld? {
        LoadOk(s, s.ops[step.op].msg.id);
      }
    }
    OpMovesHolders(s.rows, s.ops, step.op, o);
  }

  lemma InsertKeepsHolders(s: State, op: OpId, stamp: Time)
    requires Inv(s) && HoldersOk(s.rows, s.ops) && Enabled(s, InsertRow(op, stamp))
    ensures HoldersOk(ApplyInsert(s, op, stamp).rows, ApplyInsert(s, op, stamp).ops)
  {
    var o := s.ops[op];
    if o.id in s.rows {
      OpMovesHolders(s.rows, s.ops, op, Some(Publishing(o.rest)));
    } else {
      forall a | a in s.ops ensures HeldBy(s.ops[a]) != Some(o.id) {
        assert HolderOk(s.rows, s.ops[a]);
      }
      var e := FirstEntry(o, stamp, s.now).row;
      UnheldRowChanges(s.rows, s.ops, o.id, e);
      OpMovesHolders(s.rows[o.id := e], s.ops, op, Some(Inserted(o.id, o.request.payload, o.rest)));
    }
  }

  lemma SendOrSaveKeepsHolders(s: State, step: Step)
    requires HoldersOk(s.rows, s.ops) && Enabled(s, step) && (step.Send? || step.SavePayload? || step.Tick?)
    ensures HoldersOk(Apply(s, step).rows, Apply(s, step).ops)
  {
    if step.Send? {
      OpMovesHolders(s.rows, s.ops, step.op, None);
    } else if step.SavePayload? {
      OpMovesHolders(s.rows, s.ops, step.op, Some(Publishing(s.ops[step.op].rest)));
    }
  }

  lemma StepKeepsHolders(s: State, step: Step)
    requires Inv(s) && HoldersOk(s.rows, s.ops) && Enabled(s, step) && InContract(step)
    ensures HoldersOk(Apply(s, step).rows, Apply(s, step).ops)
  {
    if step.InsertRow? {
      InsertKeepsHolders(s, step.op, step.stamp);
    } else if step.Attempt? {
      if Commits(s, step.op) {
        CommitKeepsHolders(s, step.op, step.stamp);
      }
    } else if Private(step) {
      PrivateStepKeepsHolders(s, step);
    } else {
      SendOrSaveKeepsHolders(s, step);
    }
  }

  lemma {:induction false} RunKeepsHolders(s: State, steps: seq<Step>, t: State)
    requires Inv(s) && HoldersOk(s.rows, s.ops) && ContractRun(s, steps, t)
    ensures Inv(t) && HoldersOk(t.rows, t.ops)
    decreases |steps|
  {
    if steps == [] {
    } else {
      assert InContract(steps[0]);
      StepKeepsInv(s, steps[0]);
      StepKeepsHolders(s, steps[0]);
      assert forall i :: 0 <= i < |steps[1..]| ==> steps[1..][i] == steps[i + 1];
      RunKeepsHolders(Apply(s, steps[0]), steps[1..], t);
    }
  }

  lemma ContractInv(s: State)
    requires ContractReachable(s)
    ensures Inv(s) && HoldersOk(s.rows, s.ops)
  {
    var now, steps :| ContractRun(Init(now), steps, s);
    InitInv(now);
    InitHoldersOk(now);
    RunKeepsHolders(Init(now), steps, s);
  }

  /** An event has at most one outstanding holder, and only while it is BEING_PROCESSED. */
  lemma AtMostOneHolder(s: State, a: OpId, b: OpId)
    requires ContractReachable(s) && a in s.ops && b in s.ops
    requires HeldBy(s.ops[a]).Some? && HeldBy(s.ops[a]) == HeldBy(s.ops[b])
    ensures a == b
    ensures HeldBy(s.ops[a]).value in s.rows && s.rows[HeldBy(s.ops[a]).value].status == BeingProcessed
  {
    ContractInv(s);
    assert HolderOk(s.rows, s.ops[a]);
  }

  /** The holder's report wins its first compare-and-swap, whatever the other operations do. */
  lemma HolderNeverLosesTheRace(s: State, op: OpId)
    requires ContractReachable(s) && op in s.ops && s.ops[op].Committing? && IsReport(s.ops[op].cause)
    ensures Commits(s, op)
  {
    ContractInv(s);
    OpIsOk(s, op);
    assert HolderOk(s.rows, s.ops[op]);
    CommandTargetsSnapshot(s.ops[op].snap, s.ops[op].cause);
  }

  lemma OnlyReportsTouchTerminalRows(e: Event, c: Cause)
    requires Permissible(e, c) && StatesAgree(e) && Terminal(e.status)
    ensures IsReport(c)
  {
  }

  lemma CommitterIsLive(rows: Rows, ops: map<OpId, Op>, op: OpId)
    requires HoldersOk(rows, ops) && op in ops && ops[op].Committing? && Permissible(ops[op].snap, ops[op].cause)
    requires ops[op].snap.id in rows && rows[ops[op].snap.id] == ops[op].snap && StatesAgree(ops[op].snap)
    ensures !Terminal(ops[op].snap.status)
  {
    if Terminal(ops[op].snap.status) {
      OnlyReportsTouchTerminalRows(ops[op].snap, ops[op].cause);
      HolderIsOk(rows, ops, op);
    }
  }

  lemma TerminalRowIsNotReplaced(s: State, op: OpId)
    requires Inv(s) && HoldersOk(s.rows, s.ops) && Commits(s, op)
    ensures !Terminal(s.rows[s.ops[op].snap.id].status)
  {
    SnapshotIsCurrent(s, op);
    RowStates(s, s.ops[op].snap.id);
    CommitterIsLive(s.rows, s.ops, op);
  }

  lemma RowsUntouched(s: State, step: Step, id: EventId)
    requires Enabled(s, step) && !step.Attempt? && id in s.rows
    ensures id in Apply(s, step).rows && Apply(s, step).rows[id] == s.rows[id]
  {
  }

  lemma AttemptLeavesTerminalRow(s: State, op: OpId, stamp: Time, id: EventId)
    requires Inv(s) && HoldersOk(s.rows, s.ops) && Enabled(s, Attempt(op, stamp)) && id in s.rows
             && Terminal(s.rows[id].status)
    ensures var t := ApplyAttempt(s, op, stamp); id in t.rows && t.rows[id] == s.rows[id]
  {
    if Commits(s, op) {
      SnapshotIsCurrent(s, op);
      TerminalRowIsNotReplaced(s, op);
      CommitShape(s, op, stamp);
    }
  }

  lemma StepLeavesTerminalRow(s: State, step: Step, id: EventId)
    requires Inv(s) && HoldersOk(s.rows, s.ops) && Enabled(s, step) && id in s.rows && Terminal(s.rows[id].status)
    ensures id in Apply(s, step).rows && Apply(s, step).rows[id] == s.rows[id]
  {
    if step.Attempt? {
      AttemptLeavesTerminalRow(s, step.op, step.stamp, id);
    } else {
      RowsUntouched(s, step, id);
    }
  }

  lemma ContractStep(s: State, step: Step, id: EventId)
    requires Inv(s) && HoldersOk(s.rows, s.ops) && Enabled(s, step) && InContract(step)
    requires id in s.rows && Terminal(s.rows[id].status)
    ensures var t := Apply(s, step);
            Inv(t) && HoldersOk(t.rows, t.ops) && id in t.rows && t.rows[id] == s.rows[id]
  {
    StepKeepsInv(s, step);
    StepKeepsHolders(s, step);
    StepLeavesTerminalRow(s, step, id);
  }

  lemma {:induction false} RunLeavesTerminalRow(s: State, steps: seq<Step>, t: State, id: EventId)
    requires Inv(s) && HoldersOk(s.rows, s.ops) && ContractRun(s, steps, t)
    requires id in s.rows && Terminal(s.rows[id].status)
    ensures id in t.rows && t.rows[id] == s.rows[id]
    decreases |steps|
  {
    if steps == [] {
    } else {
      assert InContract(steps[0]);
      ContractStep(s, steps[0], id);
      assert forall i :: 0 <= i < |steps[1..]| ==> steps[1..][i] == steps[i + 1];
      RunLeavesTerminalRow(Apply(s, steps[0]), steps[1..], t, id);
    }
  }

  /** PROCESSED and FAILED are absorbing: the row of a finished event is never written again. */
  lemma TerminalStatesAbsorb(s: State, steps: seq<Step>, t: State, id: EventId)
    requires ContractReachable(s) && ContractRun(s, steps, t)
    requires id in s.rows && Terminal(s.rows[id].status)
    ensures id in t.rows && t.rows[id] == s.rows[id]
  {
    ContractInv(s);
    RunLeavesTerminalRow(s, steps, t, id);
  }
}
