/** Each committed dispatch leads to at most one broker message. */
module Broker {
  import opened EventModel
  import opened EventStore
  import opened Decisions
  import opened Lineage
  import opened Protocol

  predicate Same(id: EventId, version: int, e: Event) {
    e.id == id && e.version == version
  }

  /** No two messages for one snapshot, and none for a snapshot whose operation still has to send. */
  ghost predicate SendsOnce(s: State) {
    && (forall i, j :: 0 <= i < j < |s.sent| ==>
       s.sent[i].msg.id != s.sent[j].msg.id || s.sent[i].version != s.sent[j].version)
    && (forall op, i :: op in s.ops && s.ops[op].Sending? && 0 <= i < |s.sent|
          ==> !Same(s.sent[i].msg.id, s.sent[i].version, s.ops[op].snap))
    && (forall o1, o2 :: o1 in s.ops && o2 in s.ops && s.ops[o1].Sending? && s.ops[o2].Sending? && o1 != o2
          ==> !Same(s.ops[o1].snap.id, s.ops[o1].snap.version, s.ops[o2].snap))
  }

  /** Every snapshot dispatched so far is older than the current row. */
  lemma DispatchedSnapshotsAreOld(s: State, e: Event)
    requires Inv(s) && e.id in s.history && e.version == |s.history[e.id]|
    ensures forall o :: o in s.ops && s.ops[o].Sending? ==> !Same(e.id, e.version, s.ops[o].snap)
    ensures forall i :: 0 <= i < |s.sent| ==> !Same(s.sent[i].msg.id, s.sent[i].version, e)
  {
    forall o | o in s.ops && s.ops[o].Sending? ensures !Same(e.id, e.version, s.ops[o].snap) {
      OpIsOk(s, o);
    }
    forall i | 0 <= i < |s.sent| ensures !Same(s.sent[i].msg.id, s.sent[i].version, e) {
      assert SentOk(s.history, s.sent[i]);
    }
  }

  lemma CommitStartsFreshSend(s: State, t: State, op: OpId, o: Option<Op>)
    requires SendsOnce(s) && op in s.ops && s.ops[op].Committing? && t.sent == s.sent && t.ops == WithOp(s.ops, op, o)
    requires o.Some? && o.value.Sending? ==> o.value.snap == s.ops[op].snap
    requires var e := s.ops[op].snap;
             (forall a :: a in s.ops && s.ops[a].Sending? ==> !Same(e.id, e.version, s.ops[a].snap)) &&
             (forall i :: 0 <= i < |s.sent| ==> !Same(s.sent[i].msg.id, s.sent[i].version, e))
    ensures SendsOnce(t)
  {
  }

  lemma CommitSendsOnce(s: State, op: OpId, stamp: Time)
    requires Inv(s) && SendsOnce(s) && Commits(s, op)
    ensures SendsOnce(ApplyAttempt(s, op, stamp))
  {
    var o := s.ops[op];
    SnapshotIsCurrent(s, op);
    DispatchedSnapshotsAreOld(s, o.snap);
    CommitShape(s, op, stamp);
    CommitStartsFreshSend(s, ApplyAttempt(s, op, stamp), op, AfterCommit(o.cause, o.snap));
  }

  lemma SendSendsOnce(s: State, op: OpId, publishedAt: Time)
    requires SendsOnce(s) && Enabled(s, Send(op, publishedAt))
    ensures SendsOnce(Apply(s, Send(op, publishedAt)))
  {
    var t := Apply(s, Send(op, publishedAt));
    assert t.sent[|s.sent|].msg.id == s.ops[op].snap.id && t.sent[|s.sent|].version == s.ops[op].snap.version;
  }

  lemma OthersSendNothing(s: State, step: Step)
    requires Enabled(s, step) && !step.Send? && !step.Attempt?
    ensures Apply(s, step).sent == s.sent
    ensures forall o :: o in Apply(s, step).ops && Apply(s, step).ops[o].Sending? ==>
              o in s.ops && s.ops[o].Sending? && s.ops[o].snap == Apply(s, step).ops[o].snap
  {
  }

  lemma StepSendsOnce(s: State, step: Step)
    requires Inv(s) && SendsOnce(s) && Enabled(s, step)
    ensures SendsOnce(Apply(s, step))
  {
    if step.Send? {
      SendSendsOnce(s, step.op, step.publishedAt);
    } else if step.Attempt? {
      if Commits(s, step.op) {
        CommitSendsOnce(s, step.op, step.stamp);
      }
    } else {
      OthersSendNothing(s, step);
    }
  }

  lemma {:induction false} RunSendsOnce(s: State, steps: seq<Step>, t: State)
    requires Inv(s) && SendsOnce(s) && Run(s, steps, t)
    ensures SendsOnce(t)
    decreases |steps|
  {
    if steps == [] {
    } else {
      StepKeepsInv(s, steps[0]);
      StepSendsOnce(s, steps[0]);
      RunSendsOnce(Apply(s, steps[0]), steps[1..], t);
    }
  }

  /** Every message stems from a committed dispatch of its own snapshot version, and no two stem from the same one. */
  lemma OneMessagePerDispatch(s: State, i: nat, j: nat)
    requires Reachable(s) && i < |s.sent| && j < |s.sent|
    ensures var id, v := s.sent[i].msg.id, s.sent[i].version;
            id in s.history && 0 < v < |s.history[id]| && s.history[id][v].cause.Dispatch?
    ensures s.sent[i].msg.id == s.sent[j].msg.id && s.sent[i].version == s.sent[j].version ==> i == j
  {
    var now, steps :| Run(Init(now), steps, s);
    InitInv(now);
    RunSendsOnce(Init(now), steps, s);
    ReachableInv(s);
    assert SentOk(s.history, s.sent[i]);
  }
}
