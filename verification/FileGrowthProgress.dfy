/** Files can grow: with one chunk server that reports what it does, appending goes on from block to block. */
module FileGrowthProgress {
  import opened Common
  import opened CopySpec
  import opened NodeSpec
  import opened FileGrowth
  import R = Replication
  import RS = ReplicationSafety
  import M = MasterSpec
  import Arith

  const SERVER := 1

  // ---- Which block a request is for ----

  /** An append goes to the block in which the byte after the file's last one lies. */
  lemma AppendsGoToTheEnd(cfg: Config, f: File, usable: set<int>, distributed: seq<int>)
    requires cfg.Valid()
    ensures var k := Target(cfg, f, AppendRequest(usable, distributed));
            1 <= k && (k - 1) * cfg.blockSize <= f.size < k * cfg.blockSize
  {
    assert f.size == f.size / cfg.blockSize * cfg.blockSize + f.size % cfg.blockSize;
  }

  /** A block can be overwritten exactly if the file reaches into it and the master has it. */
  lemma WritesStayInTheFile(cfg: Config, f: File, k: nat, usable: set<int>, distributed: seq<int>)
    requires cfg.Valid()
    ensures Accepted(cfg, f, WriteRequest(k, usable, distributed)) <==>
              1 <= k && (k - 1) * cfg.blockSize < f.size && k in f.blocks
  {
    var d, rest := f.size / cfg.blockSize, f.size % cfg.blockSize;
    assert f.size == d * cfg.blockSize + rest;
    if k - 1 <= d {
      Arith.MulMonotone(k - 1, d, cfg.blockSize);
    }
    if k - 1 <= d - 1 {
      Arith.MulMonotone(k - 1, d - 1, cfg.blockSize);
    }
    if d <= k - 1 {
      Arith.MulMonotone(d, k - 1, cfg.blockSize);
    }
    if d + 1 <= k - 1 {
      Arith.MulMonotone(d + 1, k - 1, cfg.blockSize);
    }
  }

  // ---- The file size keeps up with the reports ----

  /** The file reaches at least to the end of what has been reported of block `k`. */
  ghost predicate Covers(f: File, k: nat, blockSize: nat)
    requires 1 <= k
  {
    0 < BlockAt(f, k).master.size ==> CalcFileSize(k, BlockAt(f, k).master.size, blockSize) <= f.size
  }

  lemma ReportedGrowth(cfg: Config, b: R.State, step: R.Step)
    requires cfg.Valid()
    ensures var size := R.Do(cfg, b, step).master.size;
            size == if 0 < Growth(b, step) then Growth(b, step) else b.master.size
  {
  }

  lemma StepKeepsCovers(cfg: Config, f: File, step: Step, k: nat)
    requires cfg.Valid() && 1 <= k && Covers(f, k, cfg.blockSize)
    ensures Covers(Do(cfg, f, step), k, cfg.blockSize)
  {
    if Accepted(cfg, f, step) && Target(cfg, f, step) == k {
      ReportedGrowth(cfg, BlockAt(f, k), BlockStep(step));
    }
  }

  lemma {:induction false} RunKeepsCovers(cfg: Config, f: File, steps: seq<Step>, k: nat)
    requires cfg.Valid() && 1 <= k && Covers(f, k, cfg.blockSize)
    ensures Covers(Run(cfg, f, steps), k, cfg.blockSize)
    decreases |steps|
  {
    if steps != [] {
      StepKeepsCovers(cfg, f, steps[0], k);
      RunKeepsCovers(cfg, Do(cfg, f, steps[0]), steps[1..], k);
    }
  }

  /** Whatever kind of report tells the master of a block's size, the file's size is not behind it. */
  lemma FileSizeCoversTheBlocks(cfg: Config, f: File, k: nat)
    requires cfg.Valid() && Reachable(cfg, f) && 1 <= k && 0 < BlockAt(f, k).master.size
    ensures (k - 1) * cfg.blockSize + BlockAt(f, k).master.size <= f.size
  {
    var steps :| AllowedRun(cfg, NewFile, steps) && Run(cfg, NewFile, steps) == f;
    RunKeepsCovers(cfg, NewFile, steps, k);
  }

  // ---- One block ----

  /** Server 1 holds `size` bytes of the block, has reported them, and is the only replica. */
  ghost predicate Holding(cfg: Config, b: R.State, size: nat) {
    && b.now == 0 && (forall t :: t in b.tokens ==> t.primary == SERVER)
    && SERVER in b.copies
    && var c := b.copies[SERVER];
       && c.recovery.None? && c.size == size
       && b.master.version == c.version && b.master.size == size && b.master.lease == cfg.writeLease
       && b.master.replicas == [M.Replica(SERVER, cfg.writeLease, c.version, false)]
  }

  /** It has been given the lease `t`. */
  ghost predicate Leased(cfg: Config, b: R.State, t: Token, size: nat) {
    && b.now == 0 && (forall u :: u in b.tokens ==> u.primary == SERVER)
    && t in b.tokens && t.primary == SERVER && t.until == cfg.writeLease
    && var c := GetOrCreate(R.CopyAt(b, SERVER));
       && c.recovery.None? && c.size == size && t.version == c.version
       && b.master.version == c.version && b.master.size == size && b.master.lease == cfg.writeLease
       && b.master.replicas == [M.Replica(SERVER, cfg.writeLease, c.version, false)]
  }

  function Ask(): R.Step {
    R.Grant({SERVER}, [SERVER])
  }

  lemma FirstLease(cfg: Config) returns (t: Token)
    requires cfg.Valid()
    ensures R.Allowed(cfg, R.Init, Ask()) && Leased(cfg, R.Do(cfg, R.Init, Ask()), t, 0)
  {
    assert M.Fresh([SERVER]) == [M.Replica(SERVER, 0, 0, false)];
    M.MainReplicaIff(M.Fresh([SERVER]), 0, {SERVER}, 0, 0);
    t := R.Issue(R.MasterGrant(cfg, R.Init, {SERVER}, [SERVER]));
  }

  lemma NextLease(cfg: Config, b: R.State, size: nat) returns (t: Token)
    requires cfg.Valid() && Holding(cfg, b, size)
    ensures R.Allowed(cfg, b, Ask()) && Leased(cfg, R.Do(cfg, b, Ask()), t, size)
  {
    M.MainReplicaIff(b.master.replicas, b.master.version, {SERVER}, 0, 0);
    t := R.Issue(R.MasterGrant(cfg, b, {SERVER}, [SERVER]));
  }

  /** The server has appended a batch but the report has not arrived. */
  ghost predicate Appended(cfg: Config, b: R.State, size: nat, version: int) {
    && b.now == 0 && (forall t :: t in b.tokens ==> t.primary == SERVER)
    && SERVER in b.copies
    && var c := b.copies[SERVER];
       && c.recovery.None? && c.size == size && version < c.version
       && Envelope(MASTER_NODE, UpdateBlock(SERVER, c.version, size, false)) in b.net
       && b.master.version == version && b.master.size < size && b.master.lease == cfg.writeLease
       && b.master.replicas == [M.Replica(SERVER, cfg.writeLease, version, false)]
  }

  lemma AppendOne(cfg: Config, b: R.State, t: Token, size: nat, data: Bytes)
    requires cfg.Valid() && Leased(cfg, b, t, size) && |data| == cfg.batch && size + cfg.batch <= cfg.blockSize
    ensures Appended(cfg, R.Do(cfg, b, R.ClientAppends(t, [], data)), size + cfg.batch, t.version)
  {
    var r := ClientAppend(cfg, SERVER, R.CopyAt(b, SERVER), b.now, t, [], data);
    assert r.out[0] in r.out;
  }

  lemma ReportOne(cfg: Config, b: R.State, size: nat, version: int)
    requires cfg.Valid() && Appended(cfg, b, size, version)
    ensures var report := Envelope(MASTER_NODE, UpdateBlock(SERVER, b.copies[SERVER].version, size, false));
            Holding(cfg, R.Do(cfg, b, R.Deliver(report)), size) && Growth(b, R.Deliver(report)) == size
  {
    M.ReportsAreRecorded(b.master, SERVER, b.copies[SERVER].version, size, false, 0);
  }

  // ---- The whole file ----

  /** The block that the next batch goes to, and what it holds before. */
  function Last(cfg: Config, size: nat): nat
    requires cfg.Valid()
  {
    size / cfg.blockSize + 1
  }

  function Rest(cfg: Config, size: nat): nat
    requires cfg.Valid()
  {
    size % cfg.blockSize
  }

  /** `n` batches have been appended, and nothing lies behind them. */
  ghost predicate Grown(cfg: Config, f: File, n: nat)
    requires cfg.Valid()
  {
    var k, rest := Last(cfg, f.size), Rest(cfg, f.size);
    && f.size == n * cfg.batch
    && (forall j :: j in f.blocks ==> j <= k)
    && (if rest == 0 then k !in f.blocks else k in f.blocks && Holding(cfg, f.blocks[k], rest))
  }

  lemma RoomForABatch(cfg: Config, size: nat, n: nat)
    requires cfg.Valid() && size == n * cfg.batch
    ensures size % cfg.blockSize + cfg.batch <= cfg.blockSize
  {
    var d, q, rest := size / cfg.blockSize, cfg.blockSize / cfg.batch, size % cfg.blockSize;
    assert cfg.blockSize == q * cfg.batch && size == d * cfg.blockSize + rest;
    assert d * (q * cfg.batch) == (d * q) * cfg.batch;
    assert rest == (n - d * q) * cfg.batch;
    if n < d * q {
      Arith.MulMonotone(n - d * q, -1, cfg.batch);
    }
    Arith.Quotient(rest, n - d * q, 0, cfg.batch);
    Arith.WholeChunkFits(cfg.blockSize, rest, cfg.batch);
  }

  /** Where the end of the file is after one more batch. */
  lemma NextEnd(size: nat, batch: nat, block: nat)
    requires 0 < batch && 0 < block && size % block + batch <= block
    ensures var d, rest := size / block, size % block + batch;
            if rest == block then (size + batch) / block == d + 1 && (size + batch) % block == 0
            else (size + batch) / block == d && (size + batch) % block == rest
  {
    var d, rest := size / block, size % block + batch;
    assert size == d * block + size % block;
    if rest == block {
      assert size + batch == (d + 1) * block + 0;
      Arith.Quotient(size + batch, d + 1, 0, block);
    } else {
      Arith.Quotient(size + batch, d, rest, block);
    }
  }

  lemma {:induction false} RunThen(cfg: Config, f: File, steps: seq<Step>, step: Step)
    requires cfg.Valid() && AllowedRun(cfg, f, steps) && Allowed(cfg, Run(cfg, f, steps), step)
    ensures AllowedRun(cfg, f, steps + [step]) && Run(cfg, f, steps + [step]) == Do(cfg, Run(cfg, f, steps), step)
    decreases |steps|
  {
    if steps == [] {
      assert [step][1..] == [];
    } else {
      assert (steps + [step])[0] == steps[0] && (steps + [step])[1..] == steps[1..] + [step];
      RunThen(cfg, Do(cfg, f, steps[0]), steps[1..], step);
    }
  }

  lemma ReachableStep(cfg: Config, f: File, step: Step)
    requires cfg.Valid() && Reachable(cfg, f) && Allowed(cfg, f, step)
    ensures Reachable(cfg, Do(cfg, f, step))
  {
    var steps :| AllowedRun(cfg, NewFile, steps) && Run(cfg, NewFile, steps) == f;
    RunThen(cfg, NewFile, steps, step);
  }

  ghost predicate EndsAt(f: File, k: nat) {
    k in f.blocks && forall j :: j in f.blocks ==> j <= k
  }

  lemma EndIsLeased(cfg: Config, f: File, n: nat) returns (t: Token)
    requires cfg.Valid() && Grown(cfg, f, n)
    ensures var b := BlockAt(f, Last(cfg, f.size));
            R.Allowed(cfg, b, Ask()) && Leased(cfg, R.Do(cfg, b, Ask()), t, Rest(cfg, f.size))
  {
    if Rest(cfg, f.size) == 0 {
      t := FirstLease(cfg);
    } else {
      t := NextLease(cfg, f.blocks[Last(cfg, f.size)], Rest(cfg, f.size));
    }
  }

  lemma AskForTheEnd(cfg: Config, f: File, n: nat) returns (f': File, t: Token)
    requires cfg.Valid() && Grown(cfg, f, n) && Reachable(cfg, f)
    ensures Reachable(cfg, f') && f'.size == f.size && EndsAt(f', Last(cfg, f.size))
    ensures Leased(cfg, f'.blocks[Last(cfg, f.size)], t, Rest(cfg, f.size))
  {
    var k, ask := Last(cfg, f.size), AppendRequest({SERVER}, [SERVER]);
    t := EndIsLeased(cfg, f, n);
    ReachableStep(cfg, f, ask);
    f' := Do(cfg, f, ask);
    assert f'.blocks == f.blocks[k := R.Do(cfg, BlockAt(f, k), Ask())];
  }

  lemma AppendAtTheEnd(cfg: Config, f: File, k: nat, t: Token, size: nat) returns (f': File)
    requires cfg.Valid() && Reachable(cfg, f) && 1 <= k && EndsAt(f, k) && Leased(cfg, f.blocks[k], t, size)
    requires size + cfg.batch <= cfg.blockSize
    ensures Reachable(cfg, f') && f'.size == f.size && EndsAt(f', k)
    ensures Appended(cfg, f'.blocks[k], size + cfg.batch, t.version)
  {
    var append := R.ClientAppends(t, [], Zeros(cfg.batch));
    AppendOne(cfg, f.blocks[k], t, size, Zeros(cfg.batch));
    ReachableStep(cfg, f, Inside(k, append));
    f' := Do(cfg, f, Inside(k, append));
    assert f'.blocks == f.blocks[k := R.Do(cfg, f.blocks[k], append)];
  }

  lemma ReportTheEnd(cfg: Config, f: File, k: nat, size: nat, version: int) returns (f': File)
    requires cfg.Valid() && Reachable(cfg, f) && 1 <= k && EndsAt(f, k) && Appended(cfg, f.blocks[k], size, version)
    ensures Reachable(cfg, f') && EndsAt(f', k) && Holding(cfg, f'.blocks[k], size)
    ensures f'.size == if 0 < size then Max(f.size, CalcFileSize(k, size, cfg.blockSize)) else f.size
  {
    var b := f.blocks[k];
    var report := R.Deliver(Envelope(MASTER_NODE, UpdateBlock(SERVER, b.copies[SERVER].version, size, false)));
    ReportOne(cfg, b, size, version);
    ReachableStep(cfg, f, Inside(k, report));
    f' := Do(cfg, f, Inside(k, report));
    assert f'.blocks == f.blocks[k := R.Do(cfg, b, report)];
  }

  lemma OneMoreIsGrown(cfg: Config, f: File, size: nat, n: nat)
    requires cfg.Valid() && size == n * cfg.batch && f.size == size + cfg.batch
    requires EndsAt(f, Last(cfg, size)) && Rest(cfg, size) + cfg.batch <= cfg.blockSize
    requires Holding(cfg, f.blocks[Last(cfg, size)], Rest(cfg, size) + cfg.batch)
    ensures Grown(cfg, f, n + 1)
  {
    NextEnd(size, cfg.batch, cfg.blockSize);
    assert f.size == (n + 1) * cfg.batch;
  }

  lemma EndOfBlock(cfg: Config, size: nat)
    requires cfg.Valid()
    ensures CalcFileSize(Last(cfg, size), Rest(cfg, size) + cfg.batch, cfg.blockSize) == size + cfg.batch
  {
  }

  lemma ReportMovesTheEnd(cfg: Config, f: File, n: nat, version: int) returns (f': File)
    requires cfg.Valid() && Reachable(cfg, f) && f.size == n * cfg.batch && EndsAt(f, Last(cfg, f.size))
    requires Rest(cfg, f.size) + cfg.batch <= cfg.blockSize
    requires Appended(cfg, f.blocks[Last(cfg, f.size)], Rest(cfg, f.size) + cfg.batch, version)
    ensures Reachable(cfg, f') && Grown(cfg, f', n + 1)
  {
    f' := ReportTheEnd(cfg, f, Last(cfg, f.size), Rest(cfg, f.size) + cfg.batch, version);
    EndOfBlock(cfg, f.size);
    OneMoreIsGrown(cfg, f', f.size, n);
  }

  lemma AppendAndReport(cfg: Config, f: File, n: nat, t: Token) returns (f': File)
    requires cfg.Valid() && Reachable(cfg, f) && f.size == n * cfg.batch && EndsAt(f, Last(cfg, f.size))
    requires Leased(cfg, f.blocks[Last(cfg, f.size)], t, Rest(cfg, f.size))
    requires Rest(cfg, f.size) + cfg.batch <= cfg.blockSize
    ensures Reachable(cfg, f') && Grown(cfg, f', n + 1)
  {
    f' := AppendAtTheEnd(cfg, f, Last(cfg, f.size), t, Rest(cfg, f.size));
    f' := ReportMovesTheEnd(cfg, f', n, t.version);
  }

  /** A client asks the master where to append, appends there, and the server's report arrives. */
  lemma OneBatchMore(cfg: Config, f: File, n: nat) returns (f': File)
    requires cfg.Valid() && Reachable(cfg, f) && Grown(cfg, f, n)
    ensures Reachable(cfg, f') && Grown(cfg, f', n + 1)
  {
    RoomForABatch(cfg, f.size, n);
    var f1, t := AskForTheEnd(cfg, f, n);
    f' := AppendAndReport(cfg, f1, n, t);
  }

  lemma {:induction false} AnyNumberOfBatches(cfg: Config, n: nat) returns (f: File)
    requires cfg.Valid()
    ensures Reachable(cfg, f) && Grown(cfg, f, n)
  {
    if n == 0 {
      f := NewFile;
      assert AllowedRun(cfg, NewFile, []) && Run(cfg, NewFile, []) == NewFile;
    } else {
      f := AnyNumberOfBatches(cfg, n - 1);
      f := OneBatchMore(cfg, f, n - 1);
    }
  }

  lemma TheRestIsReached(cfg: Config, f: File, k: nat, size: nat)
    requires cfg.Valid() && BlocksOk(cfg, f) && k in f.blocks && Holding(cfg, f.blocks[k], size)
    ensures Reached(f, k, size)
  {
    var b := f.blocks[k];
    assert R.Inv(cfg, f.blocks[k]) && BlockAt(f, k) == b;
    assert R.CopyOk(cfg, b.history, b.copies[SERVER]);
    assert b.copies[SERVER].version in BlockAt(f, k).history;
  }

  lemma FullUpToTheEnd(cfg: Config, f: File, k: nat)
    requires cfg.Valid() && Inv(cfg, f) && 1 <= k && k * cfg.blockSize <= f.size
    ensures Reached(f, k, cfg.blockSize)
  {
    Arith.MulMonotone(1, k, cfg.blockSize);
    SizeMeansFull(cfg, f, k + 1);
  }

  /** A file can be brought to any whole number of batches by appending alone: every block up to its end
      has then been filled, and the rest of it is in the block after them. */
  lemma FilesGrowToAnySize(cfg: Config, n: nat) returns (f: File)
    requires cfg.Valid()
    ensures Reachable(cfg, f) && f.size == n * cfg.batch
    ensures forall k :: 1 <= k && k * cfg.blockSize <= f.size ==> Reached(f, k, cfg.blockSize)
    ensures Rest(cfg, f.size) != 0 ==> Reached(f, Last(cfg, f.size), Rest(cfg, f.size))
  {
    f := AnyNumberOfBatches(cfg, n);
    ReachableFilesAreOrdered(cfg, f);
    forall k: nat | 1 <= k && k * cfg.blockSize <= f.size {
      FullUpToTheEnd(cfg, f, k);
    }
    if Rest(cfg, f.size) != 0 {
      TheRestIsReached(cfg, f, Last(cfg, f.size), Rest(cfg, f.size));
    }
  }
}
