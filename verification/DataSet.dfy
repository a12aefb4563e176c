/** The data set object, updated in place and proved against DataSetSpec. A method that may throw
    says so with `ok`. */
module DataSet {
  import opened Common
  import opened Spec = DataSetSpec

  class Data<S> {
    const machine: Machine<S>
    var commitLog: seq<Bill>
    var uncommit: seq<Bill>
    var zxId: int
    var stateData: S
    var snaperCount: nat

    ghost function State(): Spec.DataSet<S>
      reads this
    {
      Spec.DataSet(commitLog, uncommit, zxId, stateData, snaperCount)
    }

    constructor (machine: Machine<S>, initial: S, snaperCount: nat)
      ensures this.machine == machine && State() == Spec.DataSet([], [], 0, initial, snaperCount)
    {
      this.machine, this.snaperCount := machine, snaperCount;
      commitLog, uncommit, zxId, stateData := [], [], 0, initial;
    }

    method Propose(zxId: int, data: string, saved: bool) returns (ok: bool)
      modifies this
      ensures ok == saved && State() == Spec.Propose(old(State()), zxId, data, saved)
    {
      uncommit := uncommit + [Bill(zxId, data)];
      if !saved {
        uncommit := uncommit[..|uncommit| - 1];
        return false;
      }
      return true;
    }

    method CheckOrDrop(data: string) returns (ok: bool, passed: bool)
      ensures Spec.CheckOrDrop(machine, State(), data) == if ok then Some(passed) else None
    {
      if uncommit != [] {
        return false, false;
      }
      return true, machine.preCheck(stateData, data);
    }

    /** `saved` tells whether the disk accepts a snapshot, if one is due. */
    method Commit(zxId: int, nextCount: nat, saved: bool) returns (ok: bool)
      modifies this
      ensures var d, r := old(State()), Spec.Commit(machine, old(State()), zxId, nextCount);
              && ok == (r.Some? && (saved || !SnapshotDue(d)))
              && State() == if ok then r.value else if r.Some? then Advance(machine, d) else d
    {
      if uncommit == [] || uncommit[0].zxId != zxId {
        return false;
      }
      commitLog := commitLog + [uncommit[0]];
      uncommit := uncommit[1..];
      stateData := machine.apply(stateData, commitLog[|commitLog| - 1].data);
      this.zxId := zxId;
      if |commitLog| >= snaperCount {
        if !saved {
          return false;
        }
        ghost var log := commitLog;
        while |commitLog| > snaperCount / 4
          invariant |commitLog| <= |log| && commitLog == log[|log| - |commitLog|..]
          invariant |commitLog| == |log| || |commitLog| >= snaperCount / 4
          invariant uncommit == old(uncommit)[1..] && this.zxId == zxId && snaperCount == old(snaperCount)
          invariant stateData == machine.apply(old(stateData), old(uncommit)[0].data)
        {
          commitLog := commitLog[1..];
        }
        snaperCount := nextCount;
      }
      return true;
    }

    method Flush()
      modifies this
      ensures State() == Spec.Flush(machine, old(State()))
    {
      ghost var n := 0;
      while uncommit != []
        invariant n <= |old(uncommit)| && uncommit == old(uncommit)[n..]
        invariant commitLog == old(commitLog) + old(uncommit)[..n]
        invariant stateData == Fold(machine, old(stateData), old(uncommit)[..n])
        invariant zxId == if n == 0 then old(zxId) else old(uncommit)[n - 1].zxId
        invariant snaperCount == old(snaperCount)
        decreases |uncommit|
      {
        commitLog := commitLog + [uncommit[0]];
        uncommit := uncommit[1..];
        stateData := machine.apply(stateData, commitLog[|commitLog| - 1].data);
        zxId := commitLog[|commitLog| - 1].zxId;
        n := n + 1;
        assert old(uncommit)[..n][..n - 1] == old(uncommit)[..n - 1];
      }
      assert old(uncommit)[..n] == old(uncommit);
    }

    method Trunc(zxId: int)
      modifies this
      ensures State() == Spec.Trunc(machine, old(State()), zxId)
    {
      while commitLog != [] && commitLog[|commitLog| - 1].zxId > zxId
        invariant Undo(machine, commitLog, stateData, zxId) == Undo(machine, old(commitLog), old(stateData), zxId)
        invariant uncommit == old(uncommit) && snaperCount == old(snaperCount)
        decreases |commitLog|
      {
        stateData := machine.rollback(stateData, commitLog[|commitLog| - 1].data);
        commitLog := commitLog[..|commitLog| - 1];
      }
      this.zxId := zxId;
    }
  }
}
