/** What a run of commits and flushes does to the bills proposed: none is lost, repeated or overtaken. */
module DataSetRuns {
  import opened Common
  import opened DataSetSpec

  /** The bills that have been logged as proposals. */
  function Proposed(ops: seq<Op>): seq<Bill> {
    if ops == [] then []
    else (if ops[0].ProposeOp? && ops[0].saved then [Bill(ops[0].zxId, ops[0].data)] else []) + Proposed(ops[1..])
  }

  ghost predicate WithoutTrunc(ops: seq<Op>) {
    forall op :: op in ops ==> !op.TruncOp?
  }

  /** From `d` to `d'` the bills `applied` have been applied, in order, and logged; the log may have been cut. */
  ghost predicate Applied<S>(m: Machine<S>, d: DataSet<S>, d': DataSet<S>, applied: seq<Bill>) {
    && d'.state == Fold(m, d.state, applied) && d'.zxId == LastId(d.zxId, applied)
    && IsEnd(d'.commitLog, d.commitLog + applied)
  }

  /** What was in line and the bills that have joined it are those applied, followed by those still in line. */
  ghost predicate Conserves<S>(d: DataSet<S>, d': DataSet<S>, joined: seq<Bill>, applied: seq<Bill>) {
    d.uncommit + joined == applied + d'.uncommit
  }

  lemma AppliedTwice<S>(m: Machine<S>, d: DataSet<S>, d1: DataSet<S>, d2: DataSet<S>, a: seq<Bill>, b: seq<Bill>)
    requires Applied(m, d, d1, a) && Applied(m, d1, d2, b)
    ensures Applied(m, d, d2, a + b)
  {
    FoldInTwo(m, d.state, a, b);
    assert d.commitLog + (a + b) == d.commitLog + a + b;
  }

  lemma ConservesTwice<S>(d: DataSet<S>, d1: DataSet<S>, d2: DataSet<S>, x: seq<Bill>, a: seq<Bill>, y: seq<Bill>,
                          b: seq<Bill>)
    requires Conserves(d, d1, x, a) && Conserves(d1, d2, y, b)
    ensures Conserves(d, d2, x + y, a + b)
  {
    assert d.uncommit + (x + y) == d.uncommit + x + y;
    assert a + d1.uncommit + y == a + (d1.uncommit + y);
    assert a + (b + d2.uncommit) == a + b + d2.uncommit;
  }

  lemma NothingApplied<S>(m: Machine<S>, d: DataSet<S>, d': DataSet<S>)
    requires d'.state == d.state && d'.zxId == d.zxId && d'.commitLog == d.commitLog
    ensures Applied(m, d, d', [])
  {
    assert d.commitLog + [] == d.commitLog;
  }

  lemma CommitApplies<S>(m: Machine<S>, t: Tracked<S>, op: Op)
    requires op.CommitOp? && Commit(m, t.d, op.zxId, op.nextCount).Some?
    ensures Applied(m, t.d, Do(m, t, op).d, [t.d.uncommit[0]])
  {
    var n := CommitIs(m, t, op.zxId, op.nextCount, op.saved);
    assert [t.d.uncommit[0]][..0] == [];
  }

  lemma FlushApplies<S>(m: Machine<S>, t: Tracked<S>)
    ensures Applied(m, t.d, Do(m, t, FlushOp).d, t.d.uncommit)
  {
  }

  lemma StepConserves<S>(m: Machine<S>, t: Tracked<S>, op: Op) returns (applied: seq<Bill>)
    requires !op.TruncOp?
    ensures Conserves(t.d, Do(m, t, op).d, Proposed([op]), applied) && Applied(m, t.d, Do(m, t, op).d, applied)
  {
    var d := Do(m, t, op).d;
    applied := [];
    if op.FlushOp? {
      FlushApplies(m, t);
      applied := t.d.uncommit;
    } else if op.CommitOp? && Commit(m, t.d, op.zxId, op.nextCount).Some? {
      CommitApplies(m, t, op);
      applied := [t.d.uncommit[0]];
    } else {
      NothingApplied(m, t.d, d);
    }
    assert Proposed([op]) == if op.ProposeOp? && op.saved then [Bill(op.zxId, op.data)] else [];
    assert t.d.uncommit + [] == t.d.uncommit && [] + d.uncommit == d.uncommit;
  }

  lemma ProposedInTwo(op: Op, ops: seq<Op>)
    ensures Proposed([op] + ops) == Proposed([op]) + Proposed(ops)
  {
    assert ([op] + ops)[1..] == ops && [op][1..] == [];
  }

  /** However proposals, commits and flushes follow one another, and whatever the disk refuses: the
      bills proposed are applied to the state machine, each once and in the order in which they were
      proposed, but for those still in line; and the retained log ends with those applied last. */
  lemma {:induction false} BillsAreConserved<S>(m: Machine<S>, t: Tracked<S>, ops: seq<Op>) returns (applied: seq<Bill>)
    requires WithoutTrunc(ops)
    ensures Conserves(t.d, Run(m, t, ops).d, Proposed(ops), applied) && Applied(m, t.d, Run(m, t, ops).d, applied)
    decreases |ops|
  {
    if ops == [] {
      applied := [];
      NothingApplied(m, t.d, t.d);
      assert t.d.uncommit + [] == t.d.uncommit && [] + t.d.uncommit == t.d.uncommit;
    } else {
      var t1 := Do(m, t, ops[0]);
      var a := StepConserves(m, t, ops[0]);
      var b := BillsAreConserved(m, t1, ops[1..]);
      assert [ops[0]] + ops[1..] == ops;
      ProposedInTwo(ops[0], ops[1..]);
      ConservesTwice(t.d, t1.d, Run(m, t, ops).d, Proposed([ops[0]]), a, Proposed(ops[1..]), b);
      AppliedTwice(m, t.d, t1.d, Run(m, t, ops).d, a, b);
      applied := a + b;
    }
  }

  /** A flush leaves nothing in line; a commit takes out the bill first in line exactly if it is named. */
  lemma WhatLeavesTheLine<S>(m: Machine<S>, t: Tracked<S>, op: Op)
    requires op.CommitOp? || op.FlushOp?
    ensures var line, line' := t.d.uncommit, Do(m, t, op).d.uncommit;
            if op.FlushOp? then line' == []
            else if line != [] && line[0].zxId == op.zxId then line' == line[1..] else line' == line
  {
  }

  lemma PrunedLength(log: seq<Bill>, snaperCount: nat)
    ensures |Prune(log, snaperCount)| ==
              if |log| < snaperCount || |log| <= snaperCount / 4 then |log| else snaperCount / 4
  {
  }

  /** How much of the log a commit of the first bill leaves: all of it as long as no snapshot is due or
      if it cannot be saved; if one is saved, no more than a quarter of the length at which it was due. */
  lemma WhatIsRetained<S>(m: Machine<S>, t: Tracked<S>, zxId: int, nextCount: nat, saved: bool)
    requires t.d.uncommit != [] && t.d.uncommit[0].zxId == zxId
    ensures var d, d', n := t.d, Do(m, t, CommitOp(zxId, nextCount, saved)).d, |t.d.commitLog| + 1;
            if n < d.snaperCount || !saved then |d'.commitLog| == n && d'.snaperCount == d.snaperCount
            else |d'.commitLog| == (if n <= d.snaperCount / 4 then n else d.snaperCount / 4)
                 && d'.snaperCount == nextCount
  {
    var log := t.d.commitLog + [t.d.uncommit[0]];
    PrunedLength(log, t.d.snaperCount);
    if SnapshotDue(t.d) && !saved {
      assert Do(m, t, CommitOp(zxId, nextCount, saved)).d == Advance(m, t.d);
    } else {
      assert Do(m, t, CommitOp(zxId, nextCount, saved)).d == CommitFirst(m, t.d, nextCount);
    }
  }
}
