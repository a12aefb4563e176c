/** A file of many blocks: the master picks the block to append to from a file size it learns only
    from reports, which may be late or lost. Each block is a Replication system of its own. */
module FileGrowth {
  import opened Common
  import opened CopySpec
  import opened NodeSpec
  import R = Replication
  import RS = ReplicationSafety
  import M = MasterSpec
  import Arith

  function CalcBlockCount(size: nat, blockSize: nat): nat
    requires 0 < blockSize
  {
    size / blockSize + if size % blockSize == 0 then 0 else 1
  }

  function CalcAppendBlock(size: nat, blockSize: nat): nat
    requires 0 < blockSize
  {
    size / blockSize + 1
  }

  function CalcFileSize(blockIndex: nat, newSize: nat, blockSize: nat): nat
    requires 0 < blockIndex
  {
    (blockIndex - 1) * blockSize + newSize
  }

  datatype File = File(size: nat, blocks: map<nat, R.State>)

  const NewFile: File := File(0, map[])

  function BlockAt(f: File, k: nat): R.State {
    if k in f.blocks then f.blocks[k] else R.Init
  }

  /** A client asks the master to append, or to overwrite block `k`; or anything else happens to block `k`. */
  datatype Step =
    | AppendRequest(usable: set<int>, distributed: seq<int>)
    | WriteRequest(k: nat, usable: set<int>, distributed: seq<int>)
    | Inside(k: nat, step: R.Step)

  function Target(cfg: Config, f: File, step: Step): nat
    requires cfg.Valid()
  {
    match step
    case AppendRequest(_, _) => CalcAppendBlock(f.size, cfg.blockSize)
    case WriteRequest(k, _, _) => k
    case Inside(k, _) => k
  }

  function BlockStep(step: Step): R.Step {
    match step
    case AppendRequest(usable, distributed) => R.Grant(usable, distributed)
    case WriteRequest(_, usable, distributed) => R.Grant(usable, distributed)
    case Inside(_, inner) => inner
  }

  /** Leases come only from the two client requests; a write must name an existing block. */
  predicate Accepted(cfg: Config, f: File, step: Step)
    requires cfg.Valid()
  {
    match step
    case AppendRequest(_, _) => true
    case WriteRequest(k, _, _) => 1 <= k <= CalcBlockCount(f.size, cfg.blockSize) && k in f.blocks
    case Inside(k, inner) => 1 <= k && !inner.Grant?
  }

  /** The size a report adds to the master's record of its block, or 0. */
  function Growth(s: R.State, step: R.Step): nat {
    if !step.Deliver? || step.envelope !in s.net then 0
    else
      match step.envelope.msg
      case UpdateBlock(node, version, size, fault) => M.UpdateReplica(s.master, node, version, size, fault).1
      case ReportBlock(node, version, size, fault) => M.ReportReplica(s.master, node, version, size, fault).1
      case _ => 0
  }

  function Do(cfg: Config, f: File, step: Step): File
    requires cfg.Valid()
  {
    if !Accepted(cfg, f, step) then f
    else
      var k := Target(cfg, f, step);
      var grown := Growth(BlockAt(f, k), BlockStep(step));
      File(if 0 < grown then Max(f.size, CalcFileSize(k, grown, cfg.blockSize)) else f.size,
           f.blocks[k := R.Do(cfg, BlockAt(f, k), BlockStep(step))])
  }

  ghost predicate Allowed(cfg: Config, f: File, step: Step)
    requires cfg.Valid()
  {
    R.Allowed(cfg, BlockAt(f, Target(cfg, f, step)), BlockStep(step))
  }

  function Run(cfg: Config, f: File, steps: seq<Step>): File
    requires cfg.Valid()
    decreases |steps|
  {
    if steps == [] then f else Run(cfg, Do(cfg, f, steps[0]), steps[1..])
  }

  ghost predicate AllowedRun(cfg: Config, f: File, steps: seq<Step>)
    requires cfg.Valid()
    decreases |steps|
  {
    steps != [] ==> Allowed(cfg, f, steps[0]) && AllowedRun(cfg, Do(cfg, f, steps[0]), steps[1..])
  }

  // ---- Invariant ----

  /** Some version of block `k` has held exactly so much, at the server that minted it. */
  ghost predicate Reached(f: File, k: nat, size: nat) {
    exists v :: v in BlockAt(f, k).history && |BlockAt(f, k).history[v]| == size
  }

  ghost predicate NonEmpty(f: File, k: nat) {
    exists size :: 0 < size && Reached(f, k, size)
  }

  ghost predicate Backed(f: File, blockSize: nat) {
    f.size > 0 ==>
      exists k, size :: 1 <= k && 0 < size && Reached(f, k, size) && f.size == CalcFileSize(k, size, blockSize)
  }

  ghost predicate BlocksOk(cfg: Config, f: File)
    requires cfg.Valid()
  {
    forall k :: k in f.blocks ==> 1 <= k && R.Inv(cfg, f.blocks[k])
  }

  ghost predicate Granted(f: File, k: nat) {
    BlockAt(f, k).tokens != {}
  }

  ghost predicate OrderOk(f: File, blockSize: nat) {
    && (forall k :: 2 <= k && Granted(f, k) ==> Reached(f, k - 1, blockSize))
    && (forall k :: NonEmpty(f, k) ==> 1 <= k && Granted(f, k))
  }

  ghost predicate Inv(cfg: Config, f: File)
    requires cfg.Valid()
  {
    BlocksOk(cfg, f) && OrderOk(f, cfg.blockSize) && Backed(f, cfg.blockSize)
  }

  ghost predicate Reachable(cfg: Config, f: File)
    requires cfg.Valid()
  {
    exists steps :: AllowedRun(cfg, NewFile, steps) && Run(cfg, NewFile, steps) == f
  }

  lemma BlockEffects(cfg: Config, s: R.State, step: R.Step)
    requires cfg.Valid() && R.Inv(cfg, s)
    ensures var s' := R.Do(cfg, s, step);
            && RS.Extends(s.history, s'.history)
            && (s'.history != s.history ==> s.tokens != {})
            && s.tokens <= s'.tokens
            && (!step.Grant? ==> s'.tokens == s.tokens)
  {
    match step
    case ClientWrites(token, servers, offset, data) =>
      if token in s.tokens {
        RS.ClientWriteOk(cfg, s, token, servers, offset, data);
      }
    case ClientAppends(token, servers, data) =>
      if token in s.tokens {
        RS.ClientAppendOk(cfg, s, token, servers, data);
      }
    case _ =>
  }

  lemma BlockOk(cfg: Config, f: File, k: nat)
    requires cfg.Valid() && BlocksOk(cfg, f)
    ensures R.Inv(cfg, BlockAt(f, k))
  {
  }

  lemma ReachedFits(cfg: Config, f: File, k: nat, size: nat)
    requires cfg.Valid() && BlocksOk(cfg, f) && Reached(f, k, size)
    ensures size <= cfg.blockSize
  {
    BlockOk(cfg, f, k);
  }

  /** A block that holds data has every earlier block full. */
  lemma {:induction false} FullBefore(f: File, blockSize: nat, j: nat, k: nat)
    requires 0 < blockSize && OrderOk(f, blockSize) && 1 <= j < k && NonEmpty(f, k)
    ensures Reached(f, j, blockSize)
    decreases k - j
  {
    assert Granted(f, k);
    if j < k - 1 {
      assert Reached(f, k - 1, blockSize);
      FullBefore(f, blockSize, j, k - 1);
    }
  }

  /** If the file size says block `k - 1` is behind us, then it is. */
  lemma SizeMeansFull(cfg: Config, f: File, k: nat)
    requires cfg.Valid() && BlocksOk(cfg, f) && OrderOk(f, cfg.blockSize) && Backed(f, cfg.blockSize)
    requires 2 <= k && 0 < f.size && (k - 1) * cfg.blockSize <= f.size
    ensures Reached(f, k - 1, cfg.blockSize)
  {
    var j, size :| 1 <= j && 0 < size && Reached(f, j, size) && f.size == CalcFileSize(j, size, cfg.blockSize);
    ReachedFits(cfg, f, j, size);
    Arith.BlockOfPosition(j, k, size, cfg.blockSize);
    if k - 1 < j {
      FullBefore(f, cfg.blockSize, k - 1, j);
    }
  }

  lemma RequestTargetsFullPrefix(size: nat, k: nat, blockSize: nat)
    requires 0 < blockSize
    requires k == CalcAppendBlock(size, blockSize) || 1 <= k <= CalcBlockCount(size, blockSize)
    ensures 1 <= k && (k - 1) * blockSize <= size
    ensures 2 <= k ==> 0 < size
  {
    Arith.MulMonotone(k - 1, size / blockSize, blockSize);
  }

  lemma GrowthIsReached(cfg: Config, s: R.State, step: R.Step)
    requires cfg.Valid() && R.Inv(cfg, s) && 0 < Growth(s, step)
    ensures exists v :: v in s.history && |s.history[v]| == Growth(s, step)
  {
    assert R.MsgOk(cfg, s.history, step.envelope.msg);
  }

  lemma ReachedStays(cfg: Config, f: File, step: Step, j: nat, size: nat)
    requires cfg.Valid() && BlocksOk(cfg, f) && Reached(f, j, size)
    ensures Reached(Do(cfg, f, step), j, size)
  {
    var v :| v in BlockAt(f, j).history && |BlockAt(f, j).history[v]| == size;
    BlockOk(cfg, f, j);
    BlockEffects(cfg, BlockAt(f, j), BlockStep(step));
    assert v in BlockAt(Do(cfg, f, step), j).history;
  }

  lemma GrantAfter(cfg: Config, f: File, step: Step, j: nat)
    requires cfg.Valid() && Inv(cfg, f) && 2 <= j
    ensures Granted(Do(cfg, f, step), j) ==> Reached(Do(cfg, f, step), j - 1, cfg.blockSize)
  {
    if Granted(Do(cfg, f, step), j) {
      NewGrantsFollowFullBlocks(cfg, f, step, j);
      ReachedStays(cfg, f, step, j - 1, cfg.blockSize);
    }
  }

  lemma DataAfter(cfg: Config, f: File, step: Step, j: nat)
    requires cfg.Valid() && Inv(cfg, f)
    ensures NonEmpty(Do(cfg, f, step), j) ==> 1 <= j && Granted(Do(cfg, f, step), j)
  {
    if NonEmpty(Do(cfg, f, step), j) {
      NewDataNeedsALease(cfg, f, step, j);
    }
  }

  lemma OrderAfter(cfg: Config, f: File, step: Step)
    requires cfg.Valid() && Inv(cfg, f)
    ensures OrderOk(Do(cfg, f, step), cfg.blockSize)
  {
    forall j: nat | 2 <= j { GrantAfter(cfg, f, step, j); }
    forall j: nat { DataAfter(cfg, f, step, j); }
  }

  lemma NewGrantsFollowFullBlocks(cfg: Config, f: File, step: Step, j: nat)
    requires cfg.Valid() && Inv(cfg, f) && 2 <= j && Granted(Do(cfg, f, step), j)
    ensures Reached(f, j - 1, cfg.blockSize)
  {
    if !Granted(f, j) {
      BlockOk(cfg, f, j);
      BlockEffects(cfg, BlockAt(f, j), BlockStep(step));
      assert !step.Inside? && j == Target(cfg, f, step);
      RequestTargetsFullPrefix(f.size, j, cfg.blockSize);
      SizeMeansFull(cfg, f, j);
    }
  }

  lemma NewDataNeedsALease(cfg: Config, f: File, step: Step, j: nat)
    requires cfg.Valid() && Inv(cfg, f) && NonEmpty(Do(cfg, f, step), j)
    ensures 1 <= j && Granted(Do(cfg, f, step), j)
  {
    var s, s' := BlockAt(f, j), BlockAt(Do(cfg, f, step), j);
    BlockOk(cfg, f, j);
    BlockEffects(cfg, s, BlockStep(step));
    if s'.history == s.history {
      var size :| 0 < size && Reached(Do(cfg, f, step), j, size);
      assert Reached(f, j, size);
      assert NonEmpty(f, j);
    } else {
      assert Granted(f, j) && j in f.blocks;
    }
  }

  lemma BackedAfter(cfg: Config, f: File, step: Step)
    requires cfg.Valid() && Inv(cfg, f)
    ensures Backed(Do(cfg, f, step), cfg.blockSize)
  {
    var f' := Do(cfg, f, step);
    if f'.size != f.size {
      var k, inner := Target(cfg, f, step), BlockStep(step);
      var grown := Growth(BlockAt(f, k), inner);
      BlockOk(cfg, f, k);
      GrowthIsReached(cfg, BlockAt(f, k), inner);
      ReachedStays(cfg, f, step, k, grown);
      assert f'.size == CalcFileSize(k, grown, cfg.blockSize);
    } else if f.size > 0 {
      var j, size :| 1 <= j && 0 < size && Reached(f, j, size) && f.size == CalcFileSize(j, size, cfg.blockSize);
      ReachedStays(cfg, f, step, j, size);
    }
  }

  lemma BlocksAfter(cfg: Config, f: File, step: Step)
    requires cfg.Valid() && BlocksOk(cfg, f) && Allowed(cfg, f, step)
    requires Accepted(cfg, f, step) ==> 1 <= Target(cfg, f, step)
    ensures BlocksOk(cfg, Do(cfg, f, step))
  {
    if Accepted(cfg, f, step) {
      var k := Target(cfg, f, step);
      BlockOk(cfg, f, k);
      assert R.Inv(cfg, R.Do(cfg, BlockAt(f, k), BlockStep(step))) by {
        RS.StepKeepsInv(cfg, BlockAt(f, k), BlockStep(step));
      }
    }
  }

  lemma StepKeepsInv(cfg: Config, f: File, step: Step)
    requires cfg.Valid() && Inv(cfg, f) && Allowed(cfg, f, step)
    ensures Inv(cfg, Do(cfg, f, step))
  {
    OrderAfter(cfg, f, step);
    BackedAfter(cfg, f, step);
    BlocksAfter(cfg, f, step);
  }

  lemma {:induction false} RunKeepsInv(cfg: Config, f: File, steps: seq<Step>)
    requires cfg.Valid() && Inv(cfg, f) && AllowedRun(cfg, f, steps)
    ensures Inv(cfg, Run(cfg, f, steps))
    decreases |steps|
  {
    if steps != [] {
      StepKeepsInv(cfg, f, steps[0]);
      RunKeepsInv(cfg, Do(cfg, f, steps[0]), steps[1..]);
    }
  }

  lemma ReachableFilesAreOrdered(cfg: Config, f: File)
    requires cfg.Valid() && Reachable(cfg, f)
    ensures Inv(cfg, f)
  {
    assert forall k, size :: Reached(NewFile, k, size) ==> size == 0;
    var steps :| AllowedRun(cfg, NewFile, steps) && Run(cfg, NewFile, steps) == f;
    RunKeepsInv(cfg, NewFile, steps);
  }

  // ---- Main results ----

  /** Whatever is lost or late, every copy of every block holds whole batches and fits the block. */
  lemma SizesAreWholeBatches(cfg: Config, f: File, k: nat, node: int)
    requires cfg.Valid() && Reachable(cfg, f) && k in f.blocks && node in f.blocks[k].copies
    ensures var c := f.blocks[k].copies[node];
            c.size % cfg.batch == 0 && c.size <= cfg.blockSize && |c.file| % cfg.batch == 0 && |c.file| <= cfg.blockSize
  {
    ReachableFilesAreOrdered(cfg, f);
  }

  /** A block holds data on some server only if every block before it has been filled. */
  lemma BlocksFillInOrder(cfg: Config, f: File, j: nat, k: nat, node: int)
    requires cfg.Valid() && Reachable(cfg, f) && 1 <= j < k
    requires k in f.blocks && node in f.blocks[k].copies && f.blocks[k].copies[node].size > 0
    ensures Reached(f, j, cfg.blockSize)
  {
    ReachableFilesAreOrdered(cfg, f);
    var c := f.blocks[k].copies[node];
    assert c.version in BlockAt(f, k).history;
    assert Reached(f, k, c.size);
    FullBefore(f, cfg.blockSize, j, k);
  }

  /** The master's file size may lag but never overstates: it is the end of data some server held,
      with every earlier block filled. */
  lemma FileSizeIsBacked(cfg: Config, f: File)
    requires cfg.Valid() && Reachable(cfg, f) && f.size > 0
    ensures exists k, size :: 1 <= k && Reached(f, k, size) && f.size == CalcFileSize(k, size, cfg.blockSize)
              && forall j :: 1 <= j < k ==> Reached(f, j, cfg.blockSize)
  {
    ReachableFilesAreOrdered(cfg, f);
    var k, size :| 1 <= k && 0 < size && Reached(f, k, size) && f.size == CalcFileSize(k, size, cfg.blockSize);
    forall j | 1 <= j < k
      ensures Reached(f, j, cfg.blockSize)
    {
      FullBefore(f, cfg.blockSize, j, k);
    }
  }
}
