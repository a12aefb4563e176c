/** A server's replicated data as a value: committed log, uncommitted bills, last id, and the state
    machine's state. A state machine is given by its functions. */
module DataSetSpec {
  import opened Common

  datatype Bill = Bill(zxId: int, data: string)

  datatype Machine<!S> = Machine(apply: (S, string) -> S, rollback: (S, string) -> S, preCheck: (S, string) -> bool)

  /** When the committed log reaches `snaperCount` bills a snapshot is taken and the log is cut. */
  datatype DataSet<S> = DataSet(commitLog: seq<Bill>, uncommit: seq<Bill>, zxId: int, state: S, snaperCount: nat)

  function Fold<S>(m: Machine<S>, s: S, log: seq<Bill>): S {
    if log == [] then s else m.apply(Fold(m, s, log[..|log| - 1]), log[|log| - 1].data)
  }

  function Propose<S>(d: DataSet<S>, zxId: int, data: string, saved: bool): DataSet<S> {
    if saved then d.(uncommit := d.uncommit + [Bill(zxId, data)]) else d
  }

  function Prune(log: seq<Bill>, snaperCount: nat): (r: seq<Bill>)
    ensures |r| <= |log| && r == log[|log| - |r|..]
  {
    if |log| < snaperCount || |log| <= snaperCount / 4 then log else log[|log| - snaperCount / 4..]
  }

  /** The bill is logged and applied. */
  function Advance<S>(m: Machine<S>, d: DataSet<S>): DataSet<S>
    requires d.uncommit != []
  {
    d.(commitLog := d.commitLog + [d.uncommit[0]], uncommit := d.uncommit[1..], zxId := d.uncommit[0].zxId,
       state := m.apply(d.state, d.uncommit[0].data))
  }

  predicate SnapshotDue<S>(d: DataSet<S>) {
    d.snaperCount <= |d.commitLog| + 1
  }

  /** `nextCount` is the randomly chosen length at which the next snapshot is taken. */
  function CommitFirst<S>(m: Machine<S>, d: DataSet<S>, nextCount: nat): DataSet<S>
    requires d.uncommit != []
  {
    var bill := d.uncommit[0];
    var log := d.commitLog + [bill];
    DataSet(Prune(log, d.snaperCount), d.uncommit[1..], bill.zxId, m.apply(d.state, bill.data),
            if |log| < d.snaperCount then d.snaperCount else nextCount)
  }

  /** None: the code throws "invalid zxId". */
  function Commit<S>(m: Machine<S>, d: DataSet<S>, zxId: int, nextCount: nat): Option<DataSet<S>> {
    if d.uncommit == [] || d.uncommit[0].zxId != zxId then None else Some(CommitFirst(m, d, nextCount))
  }

  /** None: the code throws "invalid zxId". */
  function CheckOrDrop<S>(m: Machine<S>, d: DataSet<S>, data: string): Option<bool> {
    if d.uncommit != [] then None else Some(m.preCheck(d.state, data))
  }

  function Flush<S>(m: Machine<S>, d: DataSet<S>): DataSet<S> {
    d.(commitLog := d.commitLog + d.uncommit, uncommit := [],
       state := Fold(m, d.state, d.uncommit),
       zxId := if d.uncommit == [] then d.zxId else d.uncommit[|d.uncommit| - 1].zxId)
  }

  /** Undoes committed bills from the newest back to the last one not above `zxId`. */
  function Undo<S>(m: Machine<S>, log: seq<Bill>, s: S, zxId: int): (seq<Bill>, S) {
    if log != [] && zxId < log[|log| - 1].zxId
    then Undo(m, log[..|log| - 1], m.rollback(s, log[|log| - 1].data), zxId)
    else (log, s)
  }

  function Trunc<S>(m: Machine<S>, d: DataSet<S>, zxId: int): DataSet<S> {
    var (log, s) := Undo(m, d.commitLog, d.state, zxId);
    d.(commitLog := log, state := s, zxId := zxId)
  }

  // ---- Runs of operations ----

  datatype Op =
    | ProposeOp(zxId: int, data: string, saved: bool)
    | CommitOp(zxId: int, nextCount: nat, saved: bool)
    | FlushOp
    | TruncOp(zxId: int)

  /** A data set with the state and id just before its retained log (history variables). */
  datatype Tracked<S> = Tracked(d: DataSet<S>, base: S, baseId: int)

  function LastId(baseId: int, log: seq<Bill>): int {
    if log == [] then baseId else log[|log| - 1].zxId
  }

  /** A commit of a bill that is not first in line throws and leaves the data set alone; a commit whose
      snapshot cannot be saved throws after the bill has been applied. */
  function Do<S>(m: Machine<S>, t: Tracked<S>, op: Op): Tracked<S> {
    match op
    case ProposeOp(zxId, data, saved) => t.(d := Propose(t.d, zxId, data, saved))
    case CommitOp(zxId, nextCount, saved) =>
      var d' := Commit(m, t.d, zxId, nextCount);
      if d'.None? then t
      else if SnapshotDue(t.d) && !saved then t.(d := Advance(m, t.d))
      else
        var dropped := (t.d.commitLog + [t.d.uncommit[0]])[..|t.d.commitLog| + 1 - |d'.value.commitLog|];
        Tracked(d'.value, Fold(m, t.base, dropped), LastId(t.baseId, dropped))
    case FlushOp => t.(d := Flush(m, t.d))
    case TruncOp(zxId) => t.(d := Trunc(m, t.d, zxId))
  }

  function Run<S>(m: Machine<S>, t: Tracked<S>, ops: seq<Op>): Tracked<S>
    decreases |ops|
  {
    if ops == [] then t else Run(m, Do(m, t, ops[0]), ops[1..])
  }

  ghost predicate Ascending(from: int, log: seq<Bill>) {
    && (forall i :: 0 <= i < |log| ==> from < log[i].zxId)
    && (forall i, j :: 0 <= i < j < |log| ==> log[i].zxId < log[j].zxId)
  }

  ghost predicate Invertible<S(!new)>(m: Machine<S>) {
    forall s, data :: m.rollback(m.apply(s, data), data) == s
  }

  /** Ids are proposed in increasing order, and the log is not cut back below what is retained. */
  ghost predicate Proper<S>(t: Tracked<S>, op: Op) {
    match op
    case ProposeOp(zxId, _, _) => LastId(t.baseId, t.d.commitLog + t.d.uncommit) < zxId
    case TruncOp(zxId) => t.baseId <= zxId
    case _ => true
  }

  /** A truncation names the base or a bill that is still in the log. */
  ghost predicate OnTarget<S>(t: Tracked<S>, op: Op) {
    op.TruncOp? ==> op.zxId == t.baseId || exists b :: b in t.d.commitLog && b.zxId == op.zxId
  }

  ghost predicate ProperRun<S>(m: Machine<S>, t: Tracked<S>, ops: seq<Op>)
    decreases |ops|
  {
    ops != [] ==> Proper(t, ops[0]) && ProperRun(m, Do(m, t, ops[0]), ops[1..])
  }

  ghost predicate OnTargetRun<S>(m: Machine<S>, t: Tracked<S>, ops: seq<Op>)
    decreases |ops|
  {
    ops != [] ==> OnTarget(t, ops[0]) && OnTargetRun(m, Do(m, t, ops[0]), ops[1..])
  }

  /** The state is the fold of the retained log over its base, and ids ascend. */
  ghost predicate Consistent<S>(m: Machine<S>, t: Tracked<S>) {
    && t.d.state == Fold(m, t.base, t.d.commitLog)
    && Ascending(t.baseId, t.d.commitLog + t.d.uncommit)
  }

  /** The recorded last id is the last committed one. */
  ghost predicate InStep<S>(t: Tracked<S>) {
    t.d.zxId == LastId(t.baseId, t.d.commitLog)
  }

  lemma {:induction false} FoldInTwo<S>(m: Machine<S>, s: S, a: seq<Bill>, b: seq<Bill>)
    ensures Fold(m, s, a + b) == Fold(m, Fold(m, s, a), b)
    decreases |b|
  {
    if b == [] {
      assert a + b == a;
    } else {
      assert (a + b)[..|a + b| - 1] == a + b[..|b| - 1];
      FoldInTwo(m, s, a, b[..|b| - 1]);
    }
  }

  ghost predicate IsEnd(tail: seq<Bill>, log: seq<Bill>) {
    |tail| <= |log| && forall k :: 0 <= k < |tail| ==> tail[k] == log[|log| - |tail| + k]
  }

  ghost predicate UpTo(log: seq<Bill>, n: nat, zxId: int) {
    && n <= |log|
    && (forall i :: 0 <= i < n ==> log[i].zxId <= zxId)
    && (forall i :: n <= i < |log| ==> zxId < log[i].zxId)
  }

  /** Cutting back removes exactly the bills above `zxId`, from the log and from the state. */
  lemma {:induction false} UndoIsExact<S(!new)>(m: Machine<S>, base: S, log: seq<Bill>, zxId: int)
    requires Invertible(m)
    requires forall i, j :: 0 <= i < j < |log| ==> log[i].zxId < log[j].zxId
    ensures var (kept, s) := Undo(m, log, Fold(m, base, log), zxId);
            |kept| <= |log| && kept == log[..|kept|] && UpTo(log, |kept|, zxId) && s == Fold(m, base, kept)
    decreases |log|
  {
    if log != [] && zxId < log[|log| - 1].zxId {
      UndoIsExact(m, base, log[..|log| - 1], zxId);
    }
  }

  /** A truncation leaves the state after the commits up to `zxId`; it leaves the recorded last id
      right exactly if `zxId` names a retained bill or the base. */
  lemma TruncIsExact<S(!new)>(m: Machine<S>, t: Tracked<S>, zxId: int)
    requires Invertible(m) && Consistent(m, t) && t.baseId <= zxId
    ensures var d := Trunc(m, t.d, zxId);
            && |d.commitLog| <= |t.d.commitLog| && d.commitLog == t.d.commitLog[..|d.commitLog|]
            && UpTo(t.d.commitLog, |d.commitLog|, zxId)
            && d.state == Fold(m, t.base, d.commitLog) && d.uncommit == t.d.uncommit
            && (InStep(t.(d := d)) <==> OnTarget(t, TruncOp(zxId)))
  {
    var log := t.d.commitLog;
    forall i | 0 <= i < |log|
      ensures log[i] == (log + t.d.uncommit)[i]
    {
    }
    UndoIsExact(m, t.base, log, zxId);
    var d := Trunc(m, t.d, zxId);
    if InStep(t.(d := d)) && d.commitLog != [] {
      assert log[|d.commitLog| - 1] in log;
    }
    if b :| b in log && b.zxId == zxId {
      var i :| 0 <= i < |log| && log[i] == b;
      assert i == |d.commitLog| - 1;
    }
  }

  lemma AscendingAfter(from: int, log: seq<Bill>, n: nat)
    requires Ascending(from, log) && n <= |log|
    ensures Ascending(LastId(from, log[..n]), log[n..])
  {
  }

  /** Cutting the front of the log moves the base, nothing else. */
  lemma CutKeeps<S>(m: Machine<S>, t: Tracked<S>, n: nat, t': Tracked<S>)
    requires Consistent(m, t) && n <= |t.d.commitLog|
    requires t'.d.commitLog == t.d.commitLog[n..] && t'.d.uncommit == t.d.uncommit
    requires t'.d.state == t.d.state && t'.d.zxId == t.d.zxId
    requires t'.base == Fold(m, t.base, t.d.commitLog[..n]) && t'.baseId == LastId(t.baseId, t.d.commitLog[..n])
    ensures Consistent(m, t')
    ensures InStep(t) ==> InStep(t')
  {
    var log, all := t.d.commitLog, t.d.commitLog + t.d.uncommit;
    assert log == log[..n] + log[n..];
    FoldInTwo(m, t.base, log[..n], log[n..]);
    AscendingAfter(t.baseId, all, n);
    assert log[n..] + t.d.uncommit == all[n..] && log[..n] == all[..n];
  }

  /** A committed bill moves from the one list to the other. */
  lemma MovedBillKeeps<S>(m: Machine<S>, t: Tracked<S>, t': Tracked<S>)
    requires Consistent(m, t) && t.d.uncommit != [] && t'.base == t.base && t'.baseId == t.baseId
    requires t'.d.commitLog == t.d.commitLog + [t.d.uncommit[0]] && t'.d.uncommit == t.d.uncommit[1..]
    requires t'.d.state == m.apply(t.d.state, t.d.uncommit[0].data) && t'.d.zxId == t.d.uncommit[0].zxId
    ensures Consistent(m, t') && InStep(t')
  {
    assert t'.d.commitLog[..|t'.d.commitLog| - 1] == t.d.commitLog;
    assert t'.d.commitLog + t'.d.uncommit == t.d.commitLog + t.d.uncommit;
  }

  /** What a commit of the bill first in line does: the bill is moved and applied, and then some
      front part of the log, possibly nothing, is cut off. */
  lemma CommitIs<S>(m: Machine<S>, t: Tracked<S>, zxId: int, nextCount: nat, saved: bool) returns (n: nat)
    requires Commit(m, t.d, zxId, nextCount).Some?
    ensures var d, t' := Advance(m, t.d), Do(m, t, CommitOp(zxId, nextCount, saved));
            && n <= |d.commitLog| && t'.d.commitLog == d.commitLog[n..] && t'.d.uncommit == d.uncommit
            && t'.d.state == d.state && t'.d.zxId == d.zxId
            && t'.base == Fold(m, t.base, d.commitLog[..n]) && t'.baseId == LastId(t.baseId, d.commitLog[..n])
  {
    var log := Advance(m, t.d).commitLog;
    n := if SnapshotDue(t.d) && !saved then 0 else |log| - |CommitFirst(m, t.d, nextCount).commitLog|;
    assert log[0..] == log && log[..0] == [];
  }

  lemma CommitKeeps<S>(m: Machine<S>, t: Tracked<S>, zxId: int, nextCount: nat, saved: bool)
    requires Consistent(m, t)
    ensures Consistent(m, Do(m, t, CommitOp(zxId, nextCount, saved)))
    ensures InStep(t) ==> InStep(Do(m, t, CommitOp(zxId, nextCount, saved)))
  {
    if Commit(m, t.d, zxId, nextCount).Some? {
      var whole := t.(d := Advance(m, t.d));
      assert Consistent(m, whole) && InStep(whole) by {
        MovedBillKeeps(m, t, whole);
      }
      var n := CommitIs(m, t, zxId, nextCount, saved);
      CutKeeps(m, whole, n, Do(m, t, CommitOp(zxId, nextCount, saved)));
    }
  }

  lemma FlushKeeps<S>(m: Machine<S>, t: Tracked<S>)
    requires Consistent(m, t)
    ensures Consistent(m, Do(m, t, FlushOp))
    ensures InStep(t) ==> InStep(Do(m, t, FlushOp))
  {
    FoldInTwo(m, t.base, t.d.commitLog, t.d.uncommit);
    assert t.d.commitLog + t.d.uncommit + [] == t.d.commitLog + t.d.uncommit;
  }

  lemma ProposeKeeps<S>(m: Machine<S>, t: Tracked<S>, zxId: int, data: string, saved: bool)
    requires Consistent(m, t) && Proper(t, ProposeOp(zxId, data, saved))
    ensures Consistent(m, Do(m, t, ProposeOp(zxId, data, saved)))
  {
    var all := t.d.commitLog + t.d.uncommit;
    assert t.d.commitLog + (t.d.uncommit + [Bill(zxId, data)]) == all + [Bill(zxId, data)];
    assert all != [] ==> all[|all| - 1].zxId < zxId;
  }

  /** Removing a middle stretch of an ascending log leaves it ascending. */
  lemma AscendingWithout(from: int, log: seq<Bill>, kept: nat, rest: seq<Bill>)
    requires kept <= |log| && Ascending(from, log + rest)
    ensures Ascending(from, log[..kept] + rest)
  {
    var all, all' := log + rest, log[..kept] + rest;
    assert forall i :: 0 <= i < |all'| ==> all'[i] == all[if i < kept then i else i + |log| - kept];
  }

  lemma TruncKeeps<S(!new)>(m: Machine<S>, t: Tracked<S>, zxId: int)
    requires Invertible(m) && Consistent(m, t) && Proper(t, TruncOp(zxId))
    ensures Consistent(m, Do(m, t, TruncOp(zxId)))
    ensures InStep(Do(m, t, TruncOp(zxId))) <==> OnTarget(t, TruncOp(zxId))
  {
    TruncIsExact(m, t, zxId);
    AscendingWithout(t.baseId, t.d.commitLog, |Trunc(m, t.d, zxId).commitLog|, t.d.uncommit);
  }

  lemma StepKeepsConsistent<S(!new)>(m: Machine<S>, t: Tracked<S>, op: Op)
    requires Invertible(m) && Consistent(m, t) && Proper(t, op)
    ensures Consistent(m, Do(m, t, op))
    ensures InStep(t) && OnTarget(t, op) ==> InStep(Do(m, t, op))
  {
    match op
    case ProposeOp(zxId, data, saved) => ProposeKeeps(m, t, zxId, data, saved);
    case CommitOp(zxId, nextCount, saved) => CommitKeeps(m, t, zxId, nextCount, saved);
    case FlushOp => FlushKeeps(m, t);
    case TruncOp(zxId) => TruncKeeps(m, t, zxId);
  }

  /** Any proper run of operations keeps state and log in step; the last id too, if every
      truncation was on target. */
  lemma {:induction false} RunKeepsConsistent<S(!new)>(m: Machine<S>, t: Tracked<S>, ops: seq<Op>)
    requires Invertible(m) && Consistent(m, t) && ProperRun(m, t, ops)
    ensures Consistent(m, Run(m, t, ops))
    ensures InStep(t) && OnTargetRun(m, t, ops) ==> InStep(Run(m, t, ops))
    decreases |ops|
  {
    if ops != [] {
      StepKeepsConsistent(m, t, ops[0]);
      RunKeepsConsistent(m, Do(m, t, ops[0]), ops[1..]);
    }
  }
}
