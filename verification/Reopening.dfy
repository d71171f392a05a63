/**
 * Reports check no status, so without the adapter contract a finished event can go back to the queue.
 * Here is exactly when.
 */
module Reopening {
  import opened EventModel
  import opened EventStore
  import opened Decisions
  import opened Lineage
  import opened Protocol
  import opened AdapterContract

  /** A failure report that already found the row with attempts and time left. */
  predicate JudgedRetriable(o: Op, e: Event) {
    (o.Retrying? || (o.Committing? && o.cause.Switch?)) && o.snap == e
  }

  /** Attempts and time are left now, or a report in flight saw the current row while they were. */
  ghost predicate CanReopen(s: State, id: EventId)
    requires id in s.rows
  {
    RetriesRemain(s.rows[id], s.now) || exists op :: op in s.ops && JudgedRetriable(s.ops[op], s.rows[id])
  }

  ghost predicate Closed(s: State, id: EventId) {
    id in s.rows && Terminal(s.rows[id].status) && !CanReopen(s, id)
  }

  lemma StayClosed(s: State, t: State, id: EventId)
    requires Closed(s, id) && id in t.rows && t.rows[id] == s.rows[id] && s.now <= t.now
    requires forall op :: op in t.ops && JudgedRetriable(t.ops[op], s.rows[id]) ==>
               op in s.ops && JudgedRetriable(s.ops[op], s.rows[id])
    ensures Closed(t, id)
  {
  }

  lemma TerminalUpdate(e: Event, c: Cause, stamp: Time, now: Time)
    requires Permissible(e, c) && StatesAgree(e) && Terminal(e.status) && !c.Switch? && !RetriesRemain(e, now)
    requires e.eventProcessingDueDate == StoredOptTime(e.eventProcessingDueDate)
    ensures var n := UpdatedRow(e, CommandOf(e, c), stamp);
            Terminal(n.status) && !RetriesRemain(n, now) && n.version == e.version + 1
    ensures var a := AfterCommit(c, e); a.Some? ==> !a.value.Retrying? && !a.value.Committing?
  {
  }

  lemma NewerRowNotJudged(s: State, id: EventId, e: Event)
    requires Inv(s) && id in s.rows && e.id == id && e.version == s.rows[id].version + 1
    ensures forall op :: op in s.ops ==> !JudgedRetriable(s.ops[op], e)
  {
    assert HistoryOk(s.rows, s.history, s.now, id);
    RowOfHistory(s.rows, s.history, s.now, id);
    forall op | op in s.ops ensures !JudgedRetriable(s.ops[op], e) {
      OpIsOk(s, op);
    }
  }

  lemma RowIsLawful(s: State, id: EventId)
    requires Inv(s) && id in s.rows
    ensures StatesAgree(s.rows[id]) && s.rows[id].id == id
    ensures s.rows[id].eventProcessingDueDate == StoredOptTime(s.rows[id].eventProcessingDueDate)
  {
    assert HistoryOk(s.rows, s.history, s.now, id);
    LineageIsLawful(id, s.history[id]);
  }

  /** A terminal update of a closed row, from the parts of the state it touches. */
  lemma UpdatedRowIsClosed(s: State, t: State, op: OpId, id: EventId, e: Event, o: Option<Op>)
    requires t.ops == WithOp(s.ops, op, o) && id in t.rows && t.rows[id] == e
    requires Terminal(e.status) && !RetriesRemain(e, t.now)
    requires o.Some? ==> !o.value.Retrying? && !o.value.Committing?
    requires forall a :: a in s.ops ==> !JudgedRetriable(s.ops[a], e)
    ensures Closed(t, id)
  {
    forall a | a in t.ops ensures !JudgedRetriable(t.ops[a], e) {
      assert a != op ==> t.ops[a] == s.ops[a];
    }
  }

  lemma ClosedUpdateIsTerminal(s: State, op: OpId, stamp: Time)
    requires Inv(s) && Commits(s, op) && Closed(s, s.ops[op].snap.id)
    ensures var e := s.ops[op].snap; var n := NewEntry(s.ops[op], stamp, s.now).row;
            e.id in s.rows && s.rows[e.id] == e && n.id == e.id && n.version == e.version + 1 &&
            Terminal(n.status) && !RetriesRemain(n, s.now)
  {
    var o := s.ops[op];
    SnapshotIsCurrent(s, op);
    RowIsLawful(s, o.snap.id);
    assert !JudgedRetriable(o, s.rows[o.snap.id]);
    TerminalUpdate(o.snap, o.cause, stamp, s.now);
  }

  lemma AfterCommitNeverJudges(c: Cause, e: Event)
    ensures var a := AfterCommit(c, e); a.Some? ==> !a.value.Retrying? && !a.value.Committing?
  {
  }

  lemma OwnCommitStaysClosed(s: State, op: OpId, stamp: Time)
    requires Inv(s) && Commits(s, op) && Closed(s, s.ops[op].snap.id)
    ensures Closed(ApplyAttempt(s, op, stamp), s.ops[op].snap.id)
  {
    var o := s.ops[op];
    var n := NewEntry(o, stamp, s.now).row;
    ClosedUpdateIsTerminal(s, op, stamp);
    AfterCommitNeverJudges(o.cause, o.snap);
    NewerRowNotJudged(s, o.snap.id, n);
    CommitShape(s, op, stamp);
    UpdatedRowIsClosed(s, ApplyAttempt(s, op, stamp), op, o.snap.id, n, AfterCommit(o.cause, o.snap));
  }

  /** An operation that moves on to something other than a switch leaves an untouched row closed. */
  lemma MovedOpStaysClosed(s: State, t: State, op: OpId, id: EventId, o: Option<Op>)
    requires Closed(s, id) && t.ops == WithOp(s.ops, op, o) && t.now == s.now
    requires id in t.rows && t.rows[id] == s.rows[id] && (o.Some? ==> !o.value.Retrying? && !o.value.Committing?)
    ensures Closed(t, id)
  {
    StayClosed(s, t, id);
  }

  lemma OtherCommitStaysClosed(s: State, op: OpId, stamp: Time, id: EventId)
    requires Inv(s) && Closed(s, id) && Commits(s, op) && s.ops[op].snap.id != id
    ensures Closed(ApplyAttempt(s, op, stamp), id)
  {
    var o := s.ops[op];
    CommitShape(s, op, stamp);
    AfterCommitNeverJudges(o.cause, o.snap);
    MovedOpStaysClosed(s, ApplyAttempt(s, op, stamp), op, id, AfterCommit(o.cause, o.snap));
  }

  lemma CommitStaysClosed(s: State, op: OpId, stamp: Time, id: EventId)
    requires Inv(s) && Closed(s, id) && Commits(s, op)
    ensures Closed(ApplyAttempt(s, op, stamp), id)
  {
    if s.ops[op].snap.id == id {
      OwnCommitStaysClosed(s, op, stamp);
    } else {
      OtherCommitStaysClosed(s, op, stamp, id);
    }
  }

  /** Only a failure report judged while retries remain ever sets out to switch. */
  lemma NoNewJudgement(s: State, step: Step, e: Event, op: OpId)
    requires Enabled(s, step) && !step.Attempt? && !RetriesRemain(e, s.now)
    requires op in Apply(s, step).ops && JudgedRetriable(Apply(s, step).ops[op], e)
    ensures op in s.ops && JudgedRetriable(s.ops[op], e)
  {
  }

  lemma OtherStepStaysClosed(s: State, step: Step, id: EventId)
    requires Closed(s, id) && Enabled(s, step) && !step.Attempt?
    ensures Closed(Apply(s, step), id)
  {
    TimeAdvances(s, step);
    RowsUntouched(s, step, id);
    var t := Apply(s, step);
    forall op | op in t.ops && JudgedRetriable(t.ops[op], s.rows[id])
      ensures op in s.ops && JudgedRetriable(s.ops[op], s.rows[id])
    {
      NoNewJudgement(s, step, s.rows[id], op);
    }
    StayClosed(s, t, id);
  }

  lemma StepStaysClosed(s: State, step: Step, id: EventId)
    requires Inv(s) && Closed(s, id) && Enabled(s, step)
    ensures Closed(Apply(s, step), id)
  {
    if step.Attempt? {
      if Commits(s, step.op) {
        CommitStaysClosed(s, step.op, step.stamp, id);
      }
    } else {
      OtherStepStaysClosed(s, step, id);
    }
  }

  lemma {:induction false} RunStaysClosed(s: State, steps: seq<Step>, t: State, id: EventId)
    requires Inv(s) && Closed(s, id) && Run(s, steps, t)
    ensures Closed(t, id)
    decreases |steps|
  {
    if steps == [] {
    } else {
      StepKeepsInv(s, steps[0]);
      StepStaysClosed(s, steps[0], id);
      RunStaysClosed(Apply(s, steps[0]), steps[1..], t, id);
    }
  }

  lemma RunCons(s: State, step: Step, steps: seq<Step>, t: State)
    requires Enabled(s, step) && Run(Apply(s, step), steps, t)
    ensures Run(s, [step] + steps, t)
  {
    assert ([step] + steps)[1..] == steps;
  }

  lemma JudgedSwitchCommits(s: State, op: OpId, id: EventId)
    requires Inv(s) && id in s.rows && op in s.ops && s.ops[op].Committing? && JudgedRetriable(s.ops[op], s.rows[id])
    ensures Commits(s, op) && s.ops[op].snap.id == id
  {
    OpIsOk(s, op);
    LoadOk(s, id);
    CommandTargetsSnapshot(s.ops[op].snap, s.ops[op].cause);
  }

  lemma SwitchReopens(s: State, op: OpId, id: EventId) returns (t: State)
    requires Inv(s) && id in s.rows && op in s.ops && s.ops[op].Committing? && JudgedRetriable(s.ops[op], s.rows[id])
    ensures Run(s, [Attempt(op, 0)], t) && id in t.rows && t.rows[id].status == AwaitingProcessing
  {
    JudgedSwitchCommits(s, op, id);
    CommitShape(s, op, 0);
    t := Apply(s, Attempt(op, 0));
    RunCons(s, Attempt(op, 0), [], t);
  }

  /** A report in flight goes through and puts the event back in the queue. */
  lemma JudgedReportReopens(s: State, op: OpId, id: EventId) returns (steps: seq<Step>, t: State)
    requires Inv(s) && id in s.rows && op in s.ops && JudgedRetriable(s.ops[op], s.rows[id])
    ensures Run(s, steps, t) && id in t.rows && t.rows[id].status == AwaitingProcessing
  {
    if s.ops[op].Retrying? {
      var m := Apply(s, Schedule(op));
      StepKeepsInv(s, Schedule(op));
      t := SwitchReopens(m, op, id);
      RunCons(s, Schedule(op), [Attempt(op, 0)], t);
      steps := [Schedule(op)] + [Attempt(op, 0)];
    } else {
      t := SwitchReopens(s, op, id);
      steps := [Attempt(op, 0)];
    }
  }

  /** A new failure report loads the row and judges it while retries remain. */
  lemma NewReportJudges(s: State, op: OpId, id: EventId, cfg: Config) returns (steps: seq<Step>, t: State)
    requires op !in s.ops && id in s.rows && RetriesRemain(s.rows[id], s.now) && ValidConfig(cfg)
    ensures Run(s, steps, t) && t == s.(ops := s.ops[op := Retrying(cfg, s.now, s.rows[id])])
  {
    var x1, x2 := ReportUnasked(op, id, ForFailure), Decide(op, cfg);
    var m := Apply(s, x1);
    t := Apply(m, x2);
    assert t.ops == s.ops[op := Retrying(cfg, s.now, s.rows[id])];
    RunCons(m, x2, [], t);
    RunCons(s, x1, [x2], t);
    steps := [x1] + [x2];
  }

  lemma {:induction false} RunAppend(s: State, xs: seq<Step>, m: State, ys: seq<Step>, t: State)
    requires Run(s, xs, m) && Run(m, ys, t)
    ensures Run(s, xs + ys, t)
    decreases |xs|
  {
    if xs == [] {
      assert xs + ys == ys;
    } else {
      assert (xs + ys)[1..] == xs[1..] + ys;
      RunAppend(Apply(s, xs[0]), xs[1..], m, ys, t);
    }
  }

  lemma NewReportReopens(s: State, id: EventId) returns (steps: seq<Step>, t: State)
    requires Inv(s) && id in s.rows && RetriesRemain(s.rows[id], s.now)
    ensures Run(s, steps, t) && id in t.rows && t.rows[id].status == AwaitingProcessing
  {
    var op := FreshNat(s.ops.Keys);
    var xs, m := NewReportJudges(s, op, id, Config("", "", 1, 0, false, []));
    RunKeepsInv(s, xs, m);
    var ys;
    ys, t := JudgedReportReopens(m, op, id);
    RunAppend(s, xs, m, ys, t);
    steps := xs + ys;
  }

  lemma SomeReportReopens(s: State, id: EventId) returns (steps: seq<Step>, t: State)
    requires Inv(s) && id in s.rows && CanReopen(s, id)
    ensures Run(s, steps, t) && id in t.rows && t.rows[id].status == AwaitingProcessing
  {
    if RetriesRemain(s.rows[id], s.now) {
      steps, t := NewReportReopens(s, id);
    } else {
      var op :| op in s.ops && JudgedRetriable(s.ops[op], s.rows[id]);
      steps, t := JudgedReportReopens(s, op, id);
    }
  }

  /** The run puts a finished event back in the queue. */
  ghost predicate Reopens(s: State, id: EventId, steps: seq<Step>, t: State) {
    Run(s, steps, t) && id in t.rows && !Terminal(t.rows[id].status)
  }

  lemma ClosedNeverReopens(s: State, id: EventId, steps: seq<Step>, t: State)
    requires Inv(s) && Closed(s, id)
    ensures !Reopens(s, id, steps, t)
  {
    if Run(s, steps, t) {
      RunStaysClosed(s, steps, t, id);
    }
  }

  /**
   * A finished event goes back to the queue in some continuation exactly when a failure report can still find
   * retries.
   */
  lemma ReopenedIffRetriesRemain(s: State, id: EventId)
    requires Reachable(s) && id in s.rows && Terminal(s.rows[id].status)
    ensures (exists steps, t :: Reopens(s, id, steps, t)) <==> CanReopen(s, id)
  {
    ReachableInv(s);
    if CanReopen(s, id) {
      var steps, t := SomeReportReopens(s, id);
      assert Reopens(s, id, steps, t);
    } else {
      forall steps, t ensures !Reopens(s, id, steps, t) {
        ClosedNeverReopens(s, id, steps, t);
      }
    }
  }

  /** Publishing, step by step. */
  lemma PublishRun(id: EventId, r: PublishRequest, cfg: Config) returns (t: State, steps: seq<Step>)
    requires ValidConfig(cfg)
    ensures Run(Init(0), steps, t) && t.now == 0 && t.ops.Keys == {0}
    ensures t.rows == map[id := InsertedRow(InitiationFor(id, r, cfg, 0), 0)]
  {
    var x1, x2, x3 := StartPublish(0, r), BuildPublish(0, id, cfg), InsertRow(0, 0);
    var s1 := Apply(Init(0), x1);
    assert s1.ops == map[0 := Publishing([r])];
    var s2 := Apply(s1, x2);
    assert [r][1..] == [];
    assert s2.ops == map[0 := Initiating(id, r, cfg, 0, [])];
    t := Apply(s2, x3);
    RunCons(s2, x3, [], t);
    RunCons(s1, x2, [x3], t);
    RunCons(Init(0), x1, [x2] + [x3], t);
    steps := [x1] + ([x2] + [x3]);
  }

  /** An unasked success report, step by step. */
  lemma SuccessRun(s: State, op: OpId, id: EventId) returns (t: State, steps: seq<Step>)
    requires op !in s.ops && id in s.rows && s.rows[id].id == id
    ensures Run(s, steps, t) && t.now == s.now
    ensures t.rows == s.rows[id := UpdatedRow(s.rows[id], MarkAsSucceeded(id, s.rows[id].version), 0)]
  {
    var cfg := Config("", "", 1, 0, false, []);
    var x1, x2, x3 := ReportUnasked(op, id, ForSuccess([])), Decide(op, cfg), Attempt(op, 0);
    var s1 := Apply(s, x1);
    var s2 := Apply(s1, x2);
    assert s2.ops[op] == Committing(Success([]), s.rows[id]) && s2.rows == s.rows;
    assert CommandOf(s.rows[id], Success([])) == MarkAsSucceeded(id, s.rows[id].version);
    t := Apply(s2, x3);
    RunCons(s2, x3, [], t);
    RunCons(s1, x2, [x3], t);
    RunCons(s, x1, [x2] + [x3], t);
    steps := [x1] + ([x2] + [x3]);
  }

  lemma SomeSuccess(s: State, id: EventId) returns (steps: seq<Step>, t: State)
    requires id in s.rows && s.rows[id].id == id
    ensures Run(s, steps, t) && id in t.rows && t.rows[id].status == Processed
  {
    var op := FreshNat(s.ops.Keys);
    t, steps := SuccessRun(s, op, id);
  }

  /**
   * FAILED is not final either: without the contract, every reachable failed event has a run in which a success report
   * makes it PROCESSED. No run makes it anything else (NothingRevivesAFailedEvent).
   */
  lemma FailedEventCanStillSucceed(s: State, id: EventId)
    requires Reachable(s) && id in s.rows && s.rows[id].status == Failed
    ensures exists steps, t :: Run(s, steps, t) && id in t.rows && t.rows[id].status == Processed
  {
    ReachableInv(s);
    LoadOk(s, id);
    var steps, t := SomeSuccess(s, id);
  }

  /** An unasked failure report of an event on its last attempt, step by step. */
  lemma FailureRun(s: State, op: OpId, id: EventId) returns (t: State, steps: seq<Step>)
    requires op !in s.ops && id in s.rows && s.rows[id].id == id && s.rows[id].attemptsLeft <= 1
    ensures Run(s, steps, t) && t.now == s.now
    ensures t.rows == s.rows[id := UpdatedRow(s.rows[id], CommandOf(s.rows[id], Failure(s.now)), 0)]
  {
    var cfg := Config("", "", 1, 0, false, []);
    var x1, x2, x3 := ReportUnasked(op, id, ForFailure), Decide(op, cfg), Attempt(op, 0);
    var s1 := Apply(s, x1);
    var s2 := Apply(s1, x2);
    assert s2.ops[op] == Committing(Failure(s.now), s.rows[id]) && s2.rows == s.rows;
    t := Apply(s2, x3);
    RunCons(s2, x3, [], t);
    RunCons(s1, x2, [x3], t);
    RunCons(s, x1, [x2] + [x3], t);
    steps := [x1] + ([x2] + [x3]);
  }

  /** And it happens: an event published with one attempt and reported failed is FAILED. */
  lemma SomeEventFails() returns (s: State)
    ensures Reachable(s) && "e" in s.rows && s.rows["e"].status == Failed && s.rows["e"].attemptsFailed == 1
  {
    var r := PublishRequest("T", "F", "f", "p", None);
    var m, xs := PublishRun("e", r, Config("T", "F", 1, 60, false, []));
    var ys;
    s, ys := FailureRun(m, 1, "e");
    RunAppend(Init(0), xs, m, ys, s);
  }

  /** And it happens: an event published with two attempts and reported successful at once can be reopened. */
  lemma SomeProcessedEventCanReopen() returns (s: State)
    ensures Reachable(s) && "e" in s.rows && s.rows["e"].status == Processed && CanReopen(s, "e")
  {
    var cfg := Config("T", "F", 2, 60, false, []);
    var r := PublishRequest("T", "F", "f", "p", None);
    var m, xs := PublishRun("e", r, cfg);
    var ys;
    s, ys := SuccessRun(m, 1, "e");
    RunAppend(Init(0), xs, m, ys, s);
    assert s.rows["e"].attemptsLeft == 2 && s.rows["e"].eventProcessingDueDate == Some(StoredTime(60 * SECOND));
  }
}
