/** What must happen in the replication of a block: when a client's call takes effect, that it reaches
    every replica the master named, and that a server that lags can be brought up to date. */
module ReplicationProgress {
  import opened Common
  import opened CopySpec
  import opened NodeSpec
  import opened Replication
  import opened ReplicationSafety
  import BC = BlockCopy
  import M = MasterSpec

  // ---- When a client's call takes effect ----

  /** The primary has a new version. */
  ghost predicate TakesEffect(cfg: Config, s: State, step: Step)
    requires cfg.Valid() && (step.ClientWrites? || step.ClientAppends?)
  {
    VersionAt(Do(cfg, s, step), step.token.primary) > VersionAt(s, step.token.primary)
  }

  /** A client may overwrite exactly if its lease is running, the data is one batch, and the primary is
      not recovering, is not behind the lease, and has the bytes to be replaced. */
  lemma WriteTakesEffectIff(cfg: Config, s: State, token: Token, servers: seq<int>, offset: nat, data: Bytes)
    requires cfg.Valid() && Reachable(cfg, s) && token in s.tokens
    ensures TakesEffect(cfg, s, ClientWrites(token, servers, offset, data)) <==>
              && s.now <= token.until && |data| == cfg.batch && token.primary in s.copies
              && var c := s.copies[token.primary];
                 c.recovery.None? && token.version <= c.version && offset + cfg.batch <= |c.file|
  {
    ReachableStatesAreSafe(cfg, s);
  }

  /** A client may append exactly if its lease is running, the data is one batch, and the primary is
      not recovering, is not behind the lease, and has room in the block. */
  lemma AppendTakesEffectIff(cfg: Config, s: State, token: Token, servers: seq<int>, data: Bytes)
    requires cfg.Valid() && Reachable(cfg, s) && token in s.tokens
    ensures TakesEffect(cfg, s, ClientAppends(token, servers, data)) <==>
              && s.now <= token.until && |data| == cfg.batch
              && var c := GetOrCreate(CopyAt(s, token.primary));
                 c.recovery.None? && token.version <= c.version && |c.file| + cfg.batch <= cfg.blockSize
  {
    ReachableStatesAreSafe(cfg, s);
    assert CopyOk(cfg, s.history, GetOrCreate(CopyAt(s, token.primary)));
  }

  /** The bytes written replace those at the offset, and no others; a call without effect changes no byte. */
  lemma WriteReplacesTheBytes(cfg: Config, s: State, token: Token, servers: seq<int>, offset: nat, data: Bytes)
    requires cfg.Valid() && Reachable(cfg, s) && token in s.tokens && token.primary in s.copies
    ensures var step := ClientWrites(token, servers, offset, data);
            var c, c' := s.copies[token.primary], Do(cfg, s, step).copies[token.primary];
            if !TakesEffect(cfg, s, step) then c' == c
            else && c'.recovery.None? && c'.size == |c'.file| == |c.file|
                 && (forall i :: 0 <= i < |data| ==> c'.file[offset + i] == data[i])
                 && (forall i :: 0 <= i < |c.file| && !(offset <= i < offset + |data|) ==> c'.file[i] == c.file[i])
  {
    ReachableStatesAreSafe(cfg, s);
  }

  /** The bytes appended come after those that were there. */
  lemma AppendAddsTheBytes(cfg: Config, s: State, token: Token, servers: seq<int>, data: Bytes)
    requires cfg.Valid() && Reachable(cfg, s) && token in s.tokens
    ensures var step := ClientAppends(token, servers, data);
            var c, c' := GetOrCreate(CopyAt(s, token.primary)), GetOrCreate(CopyAt(Do(cfg, s, step), token.primary));
            if !TakesEffect(cfg, s, step) then c' == c
            else c'.recovery.None? && c'.size == |c'.file| && c'.file == c.file + data
  {
    ReachableStatesAreSafe(cfg, s);
    assert CopyOk(cfg, s.history, GetOrCreate(CopyAt(s, token.primary)));
  }

  /** A read is answered exactly if the copy is not recovering and has all the bytes asked for. */
  lemma ReadIsAnsweredIff(cfg: Config, s: State, n: int, offset: nat, size: nat)
    requires cfg.Valid() && Reachable(cfg, s) && n in s.copies
    ensures var c, reply := s.copies[n], Read(s.copies[n], offset, size);
            && (reply.Data? <==> c.recovery.None? && offset + size <= |c.file|)
            && (reply.Data? ==>
                 |reply.data| == size && forall i :: 0 <= i < size ==> reply.data[i] == c.file[offset + i])
  {
    ReachableStatesAreSafe(cfg, s);
  }

  // ---- It reaches the replicas and the master ----

  /** A server without a copy has an empty one as far as an append is concerned. */
  predicate Has(s: State, e: Envelope, c: Copy) {
    CopyAt(s, e.to) == Some(c) || (e.msg.AppendNotify? && CopyAt(s, e.to).None? && c == NewCopy)
  }

  /** Delivered to a copy equal to `before`, at whatever time, the envelope makes it equal to `after`,
      and the new version is reported. */
  ghost predicate Brings(cfg: Config, e: Envelope, before: Copy, after: Copy)
    requires cfg.Valid()
  {
    forall s: State :: e in s.net && Has(s, e, before) ==>
      && CopyAt(Do(cfg, s, Deliver(e)), e.to) == Some(after)
      && IsReported(Do(cfg, s, Deliver(e)), e.to, after)
  }

  /** The copy's version and size are on their way to the master. */
  ghost predicate IsReported(s: State, node: int, c: Copy) {
    Envelope(MASTER_NODE, UpdateBlock(node, c.version, c.size, false)) in s.net
  }

  /** An envelope to `node` that takes a copy from `before` to `after`. */
  ghost predicate IsSent(cfg: Config, net: set<Envelope>, node: int, before: Copy, after: Copy)
    requires cfg.Valid()
  {
    exists e :: e in net && e.to == node && Brings(cfg, e, before, after)
  }

  lemma ReceiptBrings(cfg: Config, e: Envelope, before: Copy, after: Copy)
    requires cfg.Valid() && (e.msg.WriteNotify? || e.msg.AppendNotify?) && after.recovery.None?
    requires var r := Receive(cfg, e.to, Some(before), e.msg); r.copy == Some(after) && r.out == [Report(e.to, after)]
    requires e.msg.AppendNotify? && before == NewCopy ==>
             Receive(cfg, e.to, None, e.msg) == Receive(cfg, e.to, Some(before), e.msg)
    ensures Brings(cfg, e, before, after)
  {
    forall s: State | e in s.net && Has(s, e, before)
      ensures CopyAt(Do(cfg, s, Deliver(e)), e.to) == Some(after) && IsReported(Do(cfg, s, Deliver(e)), e.to, after)
    {
      var r := Receive(cfg, e.to, CopyAt(s, e.to), e.msg);
      assert r.out[0] in r.out && Do(cfg, s, Deliver(e)) == Store(s, e.to, r);
    }
  }

  lemma EveryServerIsSent(servers: seq<int>, n: int, m: Msg)
    requires n in servers
    ensures Envelope(n, m) in FanOut(servers, m)
  {
    var j :| 0 <= j < |servers| && servers[j] == n;
    assert FanOut(servers, m)[j] == Envelope(n, m);
  }

  /** What a call that takes effect puts on the wire. */
  lemma WriteSends(cfg: Config, s: State, token: Token, servers: seq<int>, offset: nat, data: Bytes)
    requires cfg.Valid() && Inv(cfg, s) && token in s.tokens
    requires TakesEffect(cfg, s, ClientWrites(token, servers, offset, data))
    ensures var s' := Do(cfg, s, ClientWrites(token, servers, offset, data));
            && token.primary in s.copies && token.primary in s'.copies
            && var c, c' := s.copies[token.primary], s'.copies[token.primary];
               && c'.recovery.None? && Write(c, c.version, c'.version, offset, data, true) == Outcome(c', Success)
               && Report(token.primary, c') in s'.net
               && forall e :: e in FanOut(servers, WriteNotify(c.version, c'.version, offset, data)) ==> e in s'.net
  {
    var r := ClientWrite(cfg, token.primary, CopyAt(s, token.primary), s.now, token, servers, offset, data);
    assert r.out[|r.out| - 1] in r.out;
  }

  /** A write that takes effect is reported to the master and sent to every server of the lease. */
  lemma WriteReachesTheServers(cfg: Config, s: State, token: Token, servers: seq<int>, offset: nat, data: Bytes)
    requires cfg.Valid() && Reachable(cfg, s) && token in s.tokens
    requires TakesEffect(cfg, s, ClientWrites(token, servers, offset, data))
    ensures var s' := Do(cfg, s, ClientWrites(token, servers, offset, data));
            && token.primary in s.copies && token.primary in s'.copies
            && IsReported(s', token.primary, s'.copies[token.primary])
            && forall n :: n in servers ==>
                 IsSent(cfg, s'.net, n, s.copies[token.primary], s'.copies[token.primary])
  {
    ReachableStatesAreSafe(cfg, s);
    WriteSends(cfg, s, token, servers, offset, data);
    var s' := Do(cfg, s, ClientWrites(token, servers, offset, data));
    var c, c' := s.copies[token.primary], s'.copies[token.primary];
    forall n | n in servers
      ensures IsSent(cfg, s'.net, n, c, c')
    {
      var m := WriteNotify(c.version, c'.version, offset, data);
      EveryServerIsSent(servers, n, m);
      ReceiptBrings(cfg, Envelope(n, m), c, c');
    }
  }

  lemma AppendSends(cfg: Config, s: State, token: Token, servers: seq<int>, data: Bytes)
    requires cfg.Valid() && Inv(cfg, s) && token in s.tokens
    requires TakesEffect(cfg, s, ClientAppends(token, servers, data))
    ensures var s' := Do(cfg, s, ClientAppends(token, servers, data));
            && token.primary in s'.copies
            && var c, c' := GetOrCreate(CopyAt(s, token.primary)), s'.copies[token.primary];
               && c'.recovery.None?
               && Append(c, c.version, c'.version, data, true, cfg.blockSize) == Outcome(c', Success)
               && Report(token.primary, c') in s'.net
               && forall e :: e in FanOut(servers, AppendNotify(c.version, c'.version, data)) ==> e in s'.net
  {
    var r := ClientAppend(cfg, token.primary, CopyAt(s, token.primary), s.now, token, servers, data);
    assert CopyOk(cfg, s.history, GetOrCreate(CopyAt(s, token.primary)));
    assert r.out[|r.out| - 1] in r.out;
  }

  /** So is an append. */
  lemma AppendReachesTheServers(cfg: Config, s: State, token: Token, servers: seq<int>, data: Bytes)
    requires cfg.Valid() && Reachable(cfg, s) && token in s.tokens
    requires TakesEffect(cfg, s, ClientAppends(token, servers, data))
    ensures var s' := Do(cfg, s, ClientAppends(token, servers, data));
            && token.primary in s'.copies
            && IsReported(s', token.primary, s'.copies[token.primary])
            && forall n :: n in servers ==>
                 IsSent(cfg, s'.net, n, GetOrCreate(CopyAt(s, token.primary)), s'.copies[token.primary])
  {
    ReachableStatesAreSafe(cfg, s);
    AppendSends(cfg, s, token, servers, data);
    var s' := Do(cfg, s, ClientAppends(token, servers, data));
    var c, c' := GetOrCreate(CopyAt(s, token.primary)), s'.copies[token.primary];
    forall n | n in servers
      ensures IsSent(cfg, s'.net, n, c, c')
    {
      var m := AppendNotify(c.version, c'.version, data);
      EveryServerIsSent(servers, n, m);
      ReceiptBrings(cfg, Envelope(n, m), c, c');
    }
  }

  /** A periodic report that arrives makes the server and its copy known to the master, if they were not. */
  lemma BlockReportsAreLearned(cfg: Config, s: State, node: int)
    requires cfg.Valid() && node in s.copies
    ensures var c, s1 := s.copies[node], Do(cfg, s, Heartbeat(node));
            var e := Envelope(MASTER_NODE, ReportBlock(node, c.version, c.size, false));
            var m' := Do(cfg, s1, Deliver(e)).master;
            && e in s1.net && c.version <= m'.version && c.size <= m'.size
            && exists r :: r in m'.replicas && r.server == node && r.version == c.version && !r.fault
  {
    var c, m := s.copies[node], s.master;
    var found := M.First(m.replicas, (r: M.Replica) => r.server == node);
    var i := if found.Some? then found.value else |m.replicas|;
    assert M.IsFirst(m.replicas + [M.Replica(node, 0, 0, false)], node, i);
    M.ReportsAreRecorded(m, node, c.version, c.size, false, i);
    var m' := M.ReportReplica(m, node, c.version, c.size, false).0;
    assert m'.replicas[i] in m'.replicas;
  }

  // ---- The servers of the lease are all the replicas the master knows ----

  lemma OthersHold(picked: seq<int>, replicas: seq<M.Replica>, main: int, r: M.Replica)
    requires M.AreTheOthers(picked, replicas, main) && r in replicas && r.server != main
    ensures r.server in picked
  {
    var i :| 0 <= i < |replicas| && replicas[i] == r;
    assert picked[M.OthersBefore(replicas, main, i)] == replicas[i].server;
  }

  lemma {:induction false} RunStaysReachable(cfg: Config, s: State, steps: seq<Step>)
    requires cfg.Valid() && Reachable(cfg, s) && AllowedRun(cfg, s, steps)
    ensures Reachable(cfg, Run(cfg, s, steps)) && s.tokens <= Run(cfg, s, steps).tokens
    decreases |steps|
  {
    if steps != [] {
      ReachableStep(cfg, s, steps[0]);
      RunStaysReachable(cfg, Do(cfg, s, steps[0]), steps[1..]);
    }
  }

  /** A client that passes on the lease it was given, started or repeated, reaches with a call that
      takes effect every replica on the master's list when the lease was given, whatever has happened
      since. */
  lemma LeasedCallReachesEveryReplica(cfg: Config, s: State, usable: set<int>, distributed: seq<int>,
                                      steps: seq<Step>, call: Step, r: M.Replica)
    requires cfg.Valid() && Reachable(cfg, s) && Allowed(cfg, s, Grant(usable, distributed))
    requires AllowedRun(cfg, Do(cfg, s, Grant(usable, distributed)), steps)
    requires var g := MasterGrant(cfg, s, usable, distributed);
             && g.main.Some? && r in g.master.replicas && r.server != Issue(g).primary
             && (call.ClientWrites? || call.ClientAppends?) && call.token == Issue(g) && call.servers == g.others
    requires TakesEffect(cfg, Run(cfg, Do(cfg, s, Grant(usable, distributed)), steps), call)
    ensures var t := Run(cfg, Do(cfg, s, Grant(usable, distributed)), steps);
            var t', p := Do(cfg, t, call), call.token.primary;
            IsSent(cfg, t'.net, r.server, GetOrCreate(CopyAt(t, p)), GetOrCreate(CopyAt(t', p)))
  {
    var g := MasterGrant(cfg, s, usable, distributed);
    var s1 := Do(cfg, s, Grant(usable, distributed));
    var t := Run(cfg, s1, steps);
    ReachableStep(cfg, s, Grant(usable, distributed));
    RunStaysReachable(cfg, s1, steps);
    M.AnswerNamesEveryReplica(s.master, s.now, usable, distributed, cfg.writeLease);
    OthersHold(g.others, g.master.replicas, Issue(g).primary, r);
    match call
    case ClientWrites(token, servers, offset, data) => WriteReachesTheServers(cfg, t, token, servers, offset, data);
    case ClientAppends(token, servers, data) => AppendReachesTheServers(cfg, t, token, servers, data);
    case _ =>
  }

  /** A server on which the block has been placed is named to every client from then on. */
  lemma PlacedServersAreNamed(cfg: Config, s: State, servers: seq<int>, usable: set<int>, distributed: seq<int>, n: int)
    requires cfg.Valid() && n in servers
    ensures var g := MasterGrant(cfg, Do(cfg, s, Place(servers)), usable, distributed);
            g.main.Some? && n != Issue(g).primary ==> n in g.others
  {
    var s' := Do(cfg, s, Place(servers));
    var g := MasterGrant(cfg, s', usable, distributed);
    var j :| 0 <= j < |servers| && servers[j] == n;
    var i := |s.master.replicas| + j;
    assert s'.master.replicas[i] == M.Replica(n, 0, 0, false);
    M.AnswerNamesEveryReplica(s'.master, s'.now, usable, distributed, cfg.writeLease);
    if g.main.Some? && n != Issue(g).primary {
      assert g.master.replicas[i] in g.master.replicas;
      OthersHold(g.others, g.master.replicas, Issue(g).primary, g.master.replicas[i]);
    }
  }

  // ---- A server that lags can be brought up to date ----

  lemma {:induction false} DeliverAll(cfg: Config, s: State, n: int, msgs: seq<Msg>) returns (steps: seq<Step>)
    requires cfg.Valid()
    requires forall m :: m in msgs ==> Envelope(n, m) in s.net && !m.UpdateBlock? && !m.ReportBlock?
    ensures AllowedRun(cfg, s, steps) && s.net <= Run(cfg, s, steps).net
    ensures CopyAt(Run(cfg, s, steps), n) == BC.ReceiveAll(cfg, n, CopyAt(s, n), msgs)
    decreases |msgs|
  {
    if msgs == [] {
      steps := [];
    } else {
      var step := Deliver(Envelope(n, msgs[0]));
      assert msgs[0] in msgs;
      DeliverMoves(cfg, s, n, msgs[0]);
      var rest := DeliverAll(cfg, Do(cfg, s, step), n, msgs[1..]);
      steps := [step] + rest;
      assert steps[1..] == rest;
    }
  }

  lemma ReceiveKeepsACopy(cfg: Config, self: int, copy: Option<Copy>, m: Msg)
    requires cfg.Valid() && copy.Some?
    ensures Receive(cfg, self, copy, m).copy.Some?
  {
  }

  lemma DeliverMoves(cfg: Config, s: State, n: int, m: Msg)
    requires cfg.Valid() && Envelope(n, m) in s.net && !m.UpdateBlock? && !m.ReportBlock?
    ensures var s' := Do(cfg, s, Deliver(Envelope(n, m)));
            CopyAt(s', n) == Receive(cfg, n, CopyAt(s, n), m).copy && s.net <= s'.net
  {
    if n in s.copies {
      ReceiveKeepsACopy(cfg, n, CopyAt(s, n), m);
    }
  }

  lemma {:induction false} ChunksAreNoReports(version: int, file: Bytes, offset: nat, batch: nat, m: Msg)
    requires 0 < batch && m in Chunks(version, file, offset, batch)
    ensures m.RecoverBlockData?
    decreases |file| - offset
  {
    var end := if offset + batch <= |file| then offset + batch else |file|;
    if m != RecoverBlockData(version, offset, file[offset..end]) {
      ChunksAreNoReports(version, file, end, batch, m);
    }
  }

  /** What is sent before the completion. */
  function Announced(c: Copy, batch: nat): seq<Msg>
    requires 0 < batch
  {
    [StartRecoverBlock(c.version, c.size)] + Chunks(c.version, c.file, 0, batch)
  }

  lemma CompletionReports(cfg: Config, s: State, n: int, version: int)
    requires cfg.Valid() && Envelope(n, RecoverBlockComplete(version)) in s.net
    requires n in s.copies && RecoveryDone(s.copies[n], version)
    ensures var s' := Do(cfg, s, Deliver(Envelope(n, RecoverBlockComplete(version))));
            && CopyAt(s', n) == Some(CompleteRecover(s.copies[n], version))
            && IsReported(s', n, CompleteRecover(s.copies[n], version))
  {
    var r := Receive(cfg, n, CopyAt(s, n), RecoverBlockComplete(version));
    assert r.out[0] in r.out;
  }

  lemma CopySends(cfg: Config, s: State, source: int, target: int)
    requires cfg.Valid() && Inv(cfg, s) && source in s.copies && s.copies[source].recovery.None?
    ensures var c, s' := s.copies[source], Do(cfg, s, CopyTo(source, s.copies[source].version, target));
            && (forall m :: m in Announced(c, cfg.batch) ==> Envelope(target, m) in s'.net)
            && Envelope(target, RecoverBlockComplete(c.version)) in s'.net && s'.copies == s.copies
  {
    var c := s.copies[source];
    var msgs := CopyMessages(c.version, c.size, c.file, cfg.batch);
    assert msgs == Announced(c, cfg.batch) + [RecoverBlockComplete(c.version)];
    assert RecoverBlockComplete(c.version) in msgs && forall m :: m in Announced(c, cfg.batch) ==> m in msgs;
  }

  lemma AnnouncedAreNoReports(c: Copy, batch: nat, m: Msg)
    requires 0 < batch && m in Announced(c, batch)
    ensures !m.UpdateBlock? && !m.ReportBlock?
  {
    if m in Chunks(c.version, c.file, 0, batch) {
      ChunksAreNoReports(c.version, c.file, 0, batch, m);
    }
  }

  /** From every reachable state, a server whose copy is older than an idle one, and which is not
      recovering to anything as new, can be made its equal and report it: there is a run that does it. */
  lemma LaggingServerCanCatchUp(cfg: Config, s: State, source: int, target: int) returns (steps: seq<Step>)
    requires cfg.Valid() && Reachable(cfg, s) && source in s.copies && s.copies[source].recovery.None?
    requires var t := GetOrCreate(CopyAt(s, target));
             && t.version < s.copies[source].version
             && (t.recovery.Some? ==> t.recovery.value.version < s.copies[source].version)
    ensures AllowedRun(cfg, s, steps)
    ensures var s' := Run(cfg, s, steps);
            CopyAt(s', target) == Some(s.copies[source]) && IsReported(s', target, s.copies[source])
  {
    ReachableStatesAreSafe(cfg, s);
    var c := s.copies[source];
    var copy, last := CopyTo(source, c.version, target), Deliver(Envelope(target, RecoverBlockComplete(c.version)));
    var s1 := Do(cfg, s, copy);
    CopySends(cfg, s, source, target);
    forall m | m in Announced(c, cfg.batch) {
      AnnouncedAreNoReports(c, cfg.batch, m);
    }
    var middle := DeliverAll(cfg, s1, target, Announced(c, cfg.batch));
    BC.TransferReproducesTheSource(cfg, target, c, CopyAt(s, target));
    CompletionReports(cfg, Run(cfg, s1, middle), target, c.version);
    RunInTwo(cfg, s1, middle, last);
    steps := [copy] + (middle + [last]);
    assert steps[1..] == middle + [last];
  }
}
