/** The replication protocol keeps its invariant, hence equal versions mean equal bytes. */
module ReplicationSafety {
  import opened Common
  import opened CopySpec
  import opened NodeSpec
  import opened Replication
  import M = MasterSpec
  import Arith

  /** `h'` remembers everything `h` does. */
  ghost predicate Extends(h: map<int, Bytes>, h': map<int, Bytes>) {
    forall v :: v in h ==> v in h' && h'[v] == h[v]
  }

  lemma CopyStaysOk(cfg: Config, h: map<int, Bytes>, h': map<int, Bytes>, c: Copy)
    requires cfg.Valid() && Extends(h, h') && CopyOk(cfg, h, c)
    ensures CopyOk(cfg, h', c)
  {
  }

  lemma MsgStaysOk(cfg: Config, h: map<int, Bytes>, h': map<int, Bytes>, m: Msg)
    requires cfg.Valid() && Extends(h, h') && MsgOk(cfg, h, m)
    ensures MsgOk(cfg, h', m)
  {
  }

  // ---- What one server does on a message ----

  /** A chunk's bytes are the version's; bytes of other chunks stay. */
  lemma ReceivedByteOk(file: Bytes, whole: Bytes, offset: nat, data: Bytes, batch: nat, i: nat)
    requires 0 < batch && offset % batch == 0 && |file| == |whole| && offset + batch <= |whole| && i < |whole|
    requires data == whole[offset..offset + batch]
    requires i / batch != offset / batch ==> file[i] == whole[i]
    ensures |Splice(file, offset, data)| == |file| && Splice(file, offset, data)[i] == whole[i]
  {
    Arith.SameChunk(i, offset, batch);
    if offset <= i < offset + batch {
      assert Splice(file, offset, data)[offset..offset + |data|][i - offset] == data[i - offset];
    }
  }

  lemma ReceivedBytesOk(file: Bytes, whole: Bytes, flags: seq<bool>, offset: nat, data: Bytes, batch: nat)
    requires 0 < batch && offset % batch == 0 && |file| == |whole| && offset + batch <= |whole|
    requires data == whole[offset..offset + batch] && offset / batch < |flags| && FlaggedOk(file, whole, flags, batch)
    ensures |Splice(file, offset, data)| == |whole|
    ensures FlaggedOk(Splice(file, offset, data), whole, flags[offset / batch := true], batch)
  {
    forall i | 0 <= i < |whole| && i / batch < |flags| && flags[offset / batch := true][i / batch]
      ensures Splice(file, offset, data)[i] == whole[i]
    {
      ReceivedByteOk(file, whole, offset, data, batch, i);
    }
  }

  lemma ReceivedChunkOk(cfg: Config, h: map<int, Bytes>, c: Copy, m: Msg)
    requires cfg.Valid() && HistoryOk(cfg, h) && CopyOk(cfg, h, c)
    requires m.RecoverBlockData? && MsgOk(cfg, h, m)
    ensures CopyOk(cfg, h, RecoverData(c, m.version, m.offset, m.data, cfg.batch))
    ensures c.recovery.Some? && c.recovery.value.version == m.version ==>
              m.offset / cfg.batch < |c.recovery.value.flags|
  {
    if c.recovery.Some? && c.recovery.value.version == m.version {
      var r := c.recovery.value;
      Arith.ChunkIndex(r.size, m.offset, cfg.batch);
      ReceivedBytesOk(c.file, h[m.version], r.flags, m.offset, m.data, cfg.batch);
    }
  }

  lemma AllReceived(file: Bytes, whole: Bytes, flags: seq<bool>, batch: nat)
    requires 0 < batch && |file| == |whole| && |whole| % batch == 0 && |flags| == |whole| / batch
    requires FlaggedOk(file, whole, flags, batch) && AllTrue(flags)
    ensures file == whole
  {
    forall i | 0 <= i < |whole|
      ensures file[i] == whole[i]
    {
      Arith.ChunkIndex(|whole|, i, batch);
    }
  }

  lemma CompletedCopyOk(cfg: Config, h: map<int, Bytes>, c: Copy, version: int)
    requires cfg.Valid() && HistoryOk(cfg, h) && CopyOk(cfg, h, c)
    ensures CopyOk(cfg, h, CompleteRecover(c, version))
    ensures RecoveryDone(c, version) ==> c.file == h[version]
  {
    if RecoveryDone(c, version) {
      AllReceived(c.file, h[version], c.recovery.value.flags, cfg.batch);
    }
  }

  /** What handling one message must keep. */
  ghost predicate Handled(cfg: Config, h: map<int, Bytes>, copy: Option<Copy>, r: NodeResult)
    requires cfg.Valid()
  {
    && (copy.Some? ==> r.copy.Some?)
    && (r.copy.Some? ==> CopyOk(cfg, h, r.copy.value) && r.copy.value.version >= GetOrCreate(copy).version)
    && forall e :: e in r.out ==> MsgOk(cfg, h, e.msg)
  }

  lemma ReceiveNotifyOk(cfg: Config, h: map<int, Bytes>, self: int, copy: Option<Copy>, m: Msg)
    requires cfg.Valid() && HistoryOk(cfg, h) && MsgOk(cfg, h, m) && CopyOk(cfg, h, GetOrCreate(copy))
    requires m.WriteNotify? || m.AppendNotify?
    ensures Handled(cfg, h, copy, Receive(cfg, self, copy, m))
  {
  }

  lemma ReceiveStartOk(cfg: Config, h: map<int, Bytes>, self: int, copy: Option<Copy>, m: Msg)
    requires cfg.Valid() && HistoryOk(cfg, h) && MsgOk(cfg, h, m) && CopyOk(cfg, h, GetOrCreate(copy))
    requires m.StartRecoverBlock?
    ensures Handled(cfg, h, copy, Receive(cfg, self, copy, m))
  {
  }

  lemma ReceiveOk(cfg: Config, h: map<int, Bytes>, self: int, copy: Option<Copy>, m: Msg)
    requires cfg.Valid() && HistoryOk(cfg, h) && MsgOk(cfg, h, m)
    requires copy.Some? ==> CopyOk(cfg, h, copy.value)
    ensures Handled(cfg, h, copy, Receive(cfg, self, copy, m))
  {
    assert CopyOk(cfg, h, GetOrCreate(copy));
    match m
    case WriteNotify(_, _, _, _) => ReceiveNotifyOk(cfg, h, self, copy, m);
    case AppendNotify(_, _, _) => ReceiveNotifyOk(cfg, h, self, copy, m);
    case StartRecoverBlock(_, _) => ReceiveStartOk(cfg, h, self, copy, m);
    case RecoverBlockData(_, _, _) =>
      if copy.Some? {
        ReceivedChunkOk(cfg, h, copy.value, m);
      }
    case RecoverBlockComplete(version) =>
      if copy.Some? {
        CompletedCopyOk(cfg, h, copy.value, version);
      }
    case _ =>
  }

  // ---- What the primary does on a client call ----

  lemma MintOk(cfg: Config, s: State, token: Token, r: NodeResult)
    requires cfg.Valid() && Inv(cfg, s) && token in s.tokens && s.now <= token.until
    requires r.code == Success && r.copy.Some?
    requires r.copy.value.version == Bump(VersionAt(s, token.primary), token.newVersion, false)
    requires r.copy.value.recovery.None? && r.copy.value.size == |r.copy.value.file|
    requires |r.copy.value.file| % cfg.batch == 0 && |r.copy.value.file| <= cfg.blockSize
    requires var h' := s.history[r.copy.value.version := r.copy.value.file];
             Extends(s.history, h') ==> forall e :: e in r.out ==> MsgOk(cfg, h', e.msg)
    ensures Above(s.history, r.copy.value.version)
    ensures Inv(cfg, StoreMinted(s, token.primary, r))
  {
    var s' := StoreMinted(s, token.primary, r);
    var h, h' := s.history, s'.history;
    assert VersionAt(s, token.primary) in h;
    assert Above(h, r.copy.value.version);
    assert Extends(h, h');
    assert VersionAt(s', token.primary) == r.copy.value.version && IsTop(h', r.copy.value.version);
    forall n | n in s'.copies
      ensures CopyOk(cfg, h', s'.copies[n])
    {
      if n != token.primary {
        CopyStaysOk(cfg, h, h', s.copies[n]);
      }
    }
    forall e | e in s'.net
      ensures MsgOk(cfg, h', e.msg)
    {
      if e in s.net {
        MsgStaysOk(cfg, h, h', e.msg);
      }
    }
  }

  lemma MultipleOfBatch(a: nat, b: nat, batch: nat)
    requires 0 < batch && a % batch == 0 && b == batch
    ensures (a + b) % batch == 0
  {
    Arith.Quotient(a + b, a / batch + 1, 0, batch);
  }

  lemma ClientWriteOk(cfg: Config, s: State, token: Token, servers: seq<int>, offset: nat, data: Bytes)
    requires cfg.Valid() && Inv(cfg, s) && token in s.tokens
    ensures var r := ClientWrite(cfg, token.primary, CopyAt(s, token.primary), s.now, token, servers, offset, data);
            && Inv(cfg, StoreMinted(s, token.primary, r))
            && (r.code == Success ==> r.copy.Some? && Above(s.history, r.copy.value.version))
  {
    var copy := CopyAt(s, token.primary);
    var r := ClientWrite(cfg, token.primary, copy, s.now, token, servers, offset, data);
    if r.code == Success {
      var h' := s.history[r.copy.value.version := r.copy.value.file];
      assert Extends(s.history, h') && copy.value.version < r.copy.value.version ==>
               MsgOk(cfg, h', WriteNotify(copy.value.version, r.copy.value.version, offset, data));
      MintOk(cfg, s, token, r);
    } else {
      assert r.copy == copy;
    }
  }

  lemma ClientAppendOk(cfg: Config, s: State, token: Token, servers: seq<int>, data: Bytes)
    requires cfg.Valid() && Inv(cfg, s) && token in s.tokens
    ensures var r := ClientAppend(cfg, token.primary, CopyAt(s, token.primary), s.now, token, servers, data);
            && Inv(cfg, StoreMinted(s, token.primary, r))
            && (r.code == Success ==> r.copy.Some? && Above(s.history, r.copy.value.version))
  {
    var copy := CopyAt(s, token.primary);
    var c := GetOrCreate(copy);
    var r := ClientAppend(cfg, token.primary, copy, s.now, token, servers, data);
    assert CopyOk(cfg, s.history, c);
    if r.code == Success {
      var h' := s.history[r.copy.value.version := r.copy.value.file];
      MultipleOfBatch(c.size, |data|, cfg.batch);
      assert Extends(s.history, h') && c.version < r.copy.value.version ==>
               MsgOk(cfg, h', AppendNotify(c.version, r.copy.value.version, data));
      MintOk(cfg, s, token, r);
    }
  }

  // ---- The other steps ----

  lemma DeliverOk(cfg: Config, s: State, e: Envelope)
    requires cfg.Valid() && Inv(cfg, s) && e in s.net && !e.msg.UpdateBlock? && !e.msg.ReportBlock?
    ensures Inv(cfg, Do(cfg, s, Deliver(e)))
  {
    ReceiveOk(cfg, s.history, e.to, CopyAt(s, e.to), e.msg);
    var s' := Do(cfg, s, Deliver(e));
    forall t | t in s'.tokens && s'.now <= t.until && IsTop(s.history, VersionAt(s, t.primary))
      ensures IsTop(s'.history, VersionAt(s', t.primary))
    {
    }
  }

  lemma RecordOk(cfg: Config, s: State, master: M.Master, i: nat, version: int, size: nat, fault: bool)
    requires cfg.Valid() && Inv(cfg, s) && version in s.history
    requires i < |master.replicas| && master.expectVersion == s.master.expectVersion
    requires forall r :: r in master.replicas && s.now < r.lease ==> LeaseIssued(s.tokens, r)
    ensures Inv(cfg, s.(master := M.Record(master, i, version, size, fault).0))
  {
    var master' := M.Record(master, i, version, size, fault).0;
    forall r | r in master'.replicas && s.now < r.lease
      ensures LeaseIssued(s.tokens, r)
    {
      var j :| 0 <= j < |master'.replicas| && master'.replicas[j] == r;
      assert master.replicas[j] in master.replicas;
      assert LeaseIssued(s.tokens, master.replicas[j]);
      var t :| t in s.tokens && t.primary == master.replicas[j].server && master.replicas[j].lease <= t.until;
    }
  }

  lemma ReportOk(cfg: Config, s: State, e: Envelope)
    requires cfg.Valid() && Inv(cfg, s) && e in s.net && (e.msg.UpdateBlock? || e.msg.ReportBlock?)
    ensures Inv(cfg, Do(cfg, s, Deliver(e)))
  {
    var i := M.First(s.master.replicas, (r: M.Replica) => r.server == e.msg.node);
    if i.Some? {
      RecordOk(cfg, s, s.master, i.value, e.msg.version, e.msg.size, e.msg.fault);
    } else if e.msg.ReportBlock? {
      var master := s.master.(replicas := s.master.replicas + [M.Replica(e.msg.node, 0, 0, false)]);
      RecordOk(cfg, s, master, |s.master.replicas|, e.msg.version, e.msg.size, e.msg.fault);
    }
  }

  lemma FreshReplicasHoldNoLease(servers: seq<int>, r: M.Replica)
    requires r in M.Fresh(servers)
    ensures r.lease == 0
  {
  }

  lemma PlaceOk(cfg: Config, s: State, servers: seq<int>)
    requires cfg.Valid() && Inv(cfg, s)
    ensures Inv(cfg, Do(cfg, s, Place(servers)))
  {
    var s' := Do(cfg, s, Place(servers));
    forall r | r in s'.master.replicas && s.now < r.lease
      ensures LeaseIssued(s.tokens, r)
    {
      if r in M.Fresh(servers) {
        FreshReplicasHoldNoLease(servers, r);
      }
    }
  }

  /** The version with which server `p` would begin a new lease is above everything minted exactly if
      `p` has the newest version itself or the master has seen the newest high word. */
  lemma FreshLeaseIff(cfg: Config, s: State, p: int, version: int)
    requires cfg.Valid() && Inv(cfg, s) && 0 <= M.Hi(s.master.version) < M.HIGH_WORD
    requires version == Bump(VersionAt(s, p), M.NextVersion(s.master.version), false)
    ensures Above(s.history, version) <==> IsTop(s.history, VersionAt(s, p)) || Reported(s)
  {
    assert VersionAt(s, p) in s.history;
    forall w | w in s.history
      ensures w < M.NextVersion(s.master.version) <==> M.Hi(w) <= M.Hi(s.master.version)
    {
      M.NextVersionIsAbove(s.master.version, w);
    }
  }

  /** What a lease must promise: its server has the newest version, or its versions are above it. */
  ghost predicate Leads(s: State, master: M.Master, t: Token) {
    IsTop(s.history, VersionAt(s, t.primary))
      || (Above(s.history, t.newVersion) && Above(s.history, master.expectVersion))
  }

  lemma StartedLeaseLeads(cfg: Config, s: State, usable: set<int>, distributed: seq<int>)
    requires cfg.Valid() && Inv(cfg, s) && Allowed(cfg, s, Grant(usable, distributed))
    requires M.StartsLease(s.master, s.now, usable, distributed)
    ensures var g := MasterGrant(cfg, s, usable, distributed);
            g.main.Some? && Leads(s, g.master, Issue(g)) && g.master.expectVersion == M.NextVersion(s.master.version)
  {
    var g := MasterGrant(cfg, s, usable, distributed);
    if !IsTop(s.history, VersionAt(s, Issue(g).primary)) {
      forall w | w in s.history
        ensures w < M.NextVersion(s.master.version)
      {
        M.NextVersionIsAbove(s.master.version, w);
      }
    }
  }

  lemma ReplicasHaveLeases(cfg: Config, s: State, replicas: seq<M.Replica>, distributed: seq<int>)
    requires cfg.Valid() && Inv(cfg, s)
    requires replicas == if s.master.replicas == [] then M.Fresh(distributed) else s.master.replicas
    ensures forall r :: r in replicas && s.now < r.lease ==> LeaseIssued(s.tokens, r)
  {
    forall r | r in replicas && s.now < r.lease
      ensures LeaseIssued(s.tokens, r)
    {
      if s.master.replicas == [] {
        FreshReplicasHoldNoLease(distributed, r);
      }
    }
  }

  /** A lease that is still running is repeated. */
  lemma RepeatedLeaseLeads(cfg: Config, s: State, usable: set<int>, distributed: seq<int>)
    requires cfg.Valid() && Inv(cfg, s) && MasterGrant(cfg, s, usable, distributed).main.Some?
    requires !M.StartsLease(s.master, s.now, usable, distributed)
    ensures var g := MasterGrant(cfg, s, usable, distributed);
            Leads(s, g.master, Issue(g)) && g.master.expectVersion == s.master.expectVersion
  {
    var g := MasterGrant(cfg, s, usable, distributed);
    var replicas := if s.master.replicas == [] then M.Fresh(distributed) else s.master.replicas;
    ReplicasHaveLeases(cfg, s, replicas, distributed);
    assert replicas[g.main.value] in replicas && LeaseIssued(s.tokens, replicas[g.main.value]);
    var t :| t in s.tokens && t.primary == Issue(g).primary && s.now < t.until;
  }

  lemma IssuedStays(tokens: set<Token>, tokens': set<Token>, r: M.Replica)
    requires tokens <= tokens' && LeaseIssued(tokens, r)
    ensures LeaseIssued(tokens', r)
  {
    var t :| t in tokens && t.primary == r.server && r.lease <= t.until;
    assert t in tokens';
  }

  lemma GrantedReplicasHaveLeases(cfg: Config, s: State, usable: set<int>, distributed: seq<int>)
    requires cfg.Valid() && Inv(cfg, s)
    ensures var s' := Do(cfg, s, Grant(usable, distributed));
            forall r :: r in s'.master.replicas && s.now < r.lease ==> LeaseIssued(s'.tokens, r)
  {
    var g, s' := MasterGrant(cfg, s, usable, distributed), Do(cfg, s, Grant(usable, distributed));
    var replicas := if s.master.replicas == [] then M.Fresh(distributed) else s.master.replicas;
    ReplicasHaveLeases(cfg, s, replicas, distributed);
    forall r | r in s'.master.replicas && s.now < r.lease
      ensures LeaseIssued(s'.tokens, r)
    {
      if r in replicas {
        IssuedStays(s.tokens, s'.tokens, r);
      } else {
        assert Issue(g) in s'.tokens && Issue(g).primary == r.server && r.lease <= Issue(g).until;
      }
    }
  }

  lemma GrantOk(cfg: Config, s: State, usable: set<int>, distributed: seq<int>)
    requires cfg.Valid() && Inv(cfg, s) && Allowed(cfg, s, Grant(usable, distributed))
    ensures Inv(cfg, Do(cfg, s, Grant(usable, distributed)))
  {
    var g, s' := MasterGrant(cfg, s, usable, distributed), Do(cfg, s, Grant(usable, distributed));
    GrantedReplicasHaveLeases(cfg, s, usable, distributed);
    if g.main.Some? {
      if M.StartsLease(s.master, s.now, usable, distributed) {
        StartedLeaseLeads(cfg, s, usable, distributed);
      } else {
        RepeatedLeaseLeads(cfg, s, usable, distributed);
      }
      forall t | t in s'.tokens && s.now <= t.until
        ensures t.primary == Issue(g).primary && Leads(s', s'.master, t)
      {
        assert Leads(s, g.master, Issue(g));
        assert t in s.tokens ==> Leads(s, s.master, t);
      }
    }
  }

  lemma SourceOk(cfg: Config, h: map<int, Bytes>, c: Copy)
    requires cfg.Valid() && HistoryOk(cfg, h) && CopyOk(cfg, h, c) && SafeToCopy(c)
    ensures forall m :: m in CopyMessages(c.version, c.size, c.file, cfg.batch) ==> MsgOk(cfg, h, m)
    ensures CopyMessages(c.version, c.size, c.file, cfg.batch) != [] ==> c.file == h[c.version]
  {
    forall m | m in CopyMessages(c.version, c.size, c.file, cfg.batch)
      ensures MsgOk(cfg, h, m)
    {
      if m in Chunks(c.version, c.file, 0, cfg.batch) {
        ChunksAreAuthentic(c.version, c.file, 0, cfg.batch, m);
      }
    }
  }

  lemma CopyToOk(cfg: Config, s: State, source: int, version: int, target: int)
    requires cfg.Valid() && Inv(cfg, s) && Allowed(cfg, s, CopyTo(source, version, target))
    ensures Inv(cfg, Do(cfg, s, CopyTo(source, version, target)))
  {
    if source in s.copies {
      SourceOk(cfg, s.history, s.copies[source]);
    }
  }

  lemma StepKeepsInv(cfg: Config, s: State, step: Step)
    requires cfg.Valid() && Inv(cfg, s) && Allowed(cfg, s, step)
    ensures Inv(cfg, Do(cfg, s, step))
  {
    match step
    case Tick(now) =>
    case Grant(usable, distributed) => GrantOk(cfg, s, usable, distributed);
    case Place(servers) => PlaceOk(cfg, s, servers);
    case ClientWrites(token, servers, offset, data) =>
      if token in s.tokens {
        ClientWriteOk(cfg, s, token, servers, offset, data);
      }
    case ClientAppends(token, servers, data) =>
      if token in s.tokens {
        ClientAppendOk(cfg, s, token, servers, data);
      }
    case Deliver(e) =>
      if e in s.net {
        if e.msg.UpdateBlock? || e.msg.ReportBlock? {
          ReportOk(cfg, s, e);
        } else {
          DeliverOk(cfg, s, e);
        }
      }
    case CopyTo(source, version, target) => CopyToOk(cfg, s, source, version, target);
    case Heartbeat(node) =>
  }

  // ---- Whole runs ----

  function Run(cfg: Config, s: State, steps: seq<Step>): State
    requires cfg.Valid()
    decreases |steps|
  {
    if steps == [] then s else Run(cfg, Do(cfg, s, steps[0]), steps[1..])
  }

  ghost predicate AllowedRun(cfg: Config, s: State, steps: seq<Step>)
    requires cfg.Valid()
    decreases |steps|
  {
    steps != [] ==> Allowed(cfg, s, steps[0]) && AllowedRun(cfg, Do(cfg, s, steps[0]), steps[1..])
  }

  ghost predicate Reachable(cfg: Config, s: State)
    requires cfg.Valid()
  {
    exists steps :: AllowedRun(cfg, Init, steps) && Run(cfg, Init, steps) == s
  }

  ghost predicate Taken(s: State, version: int) {
    exists p :: p in s.snapshots && p.version == version
  }

  /** Every recovery under way, and every announcement of one, goes back to a source. */
  ghost predicate SourcesKnown(s: State) {
    && (forall e :: e in s.net && e.msg.StartRecoverBlock? ==> Taken(s, e.msg.version))
    && (forall n :: n in s.copies && s.copies[n].recovery.Some? ==> Taken(s, s.copies[n].recovery.value.version))
  }

  lemma AnnouncedIsTheSource(cfg: Config, c: Copy, m: Msg)
    requires cfg.Valid() && m in CopyMessages(c.version, c.size, c.file, cfg.batch) && m.StartRecoverBlock?
    ensures m.version == c.version
  {
    if m in Chunks(c.version, c.file, 0, cfg.batch) {
      ChunksAreAuthentic(c.version, c.file, 0, cfg.batch, m);
    }
  }

  lemma CopyKeepsSourcesKnown(cfg: Config, s: State, source: int, version: int, target: int)
    requires cfg.Valid() && SourcesKnown(s)
    ensures SourcesKnown(Do(cfg, s, CopyTo(source, version, target)))
  {
    var s' := Do(cfg, s, CopyTo(source, version, target));
    assert forall v :: Taken(s, v) ==> Taken(s', v);
    if source in s.copies && version <= s.copies[source].version {
      var c := s.copies[source];
      forall m | m in CopyMessages(c.version, c.size, c.file, cfg.batch) && m.StartRecoverBlock?
        ensures Taken(s', m.version)
      {
        assert Snapshot(source, c.version, c.file) in s'.snapshots;
        AnnouncedIsTheSource(cfg, c, m);
      }
    }
  }

  /** Storing the result of a handler, when the copy it leaves recovers nothing new and it sends no
      announcement. */
  lemma StoreKeepsSourcesKnown(s: State, s': State, node: int, r: NodeResult)
    requires SourcesKnown(s) && s'.snapshots == s.snapshots && s'.net == Store(s, node, r).net
             && s'.copies == Store(s, node, r).copies
    requires r.copy.Some? && r.copy.value.recovery.Some? ==> Taken(s, r.copy.value.recovery.value.version)
    requires forall e :: e in r.out ==> !e.msg.StartRecoverBlock?
    ensures SourcesKnown(s')
  {
    assert forall v :: Taken(s, v) ==> Taken(s', v);
  }

  lemma DeliverKeepsSourcesKnown(cfg: Config, s: State, e: Envelope)
    requires cfg.Valid() && SourcesKnown(s)
    ensures SourcesKnown(Do(cfg, s, Deliver(e)))
  {
    if e in s.net && !e.msg.UpdateBlock? && !e.msg.ReportBlock? {
      var r := Receive(cfg, e.to, CopyAt(s, e.to), e.msg);
      StoreKeepsSourcesKnown(s, Do(cfg, s, Deliver(e)), e.to, r);
    }
  }

  lemma ClientKeepsSourcesKnown(cfg: Config, s: State, step: Step)
    requires cfg.Valid() && SourcesKnown(s) && (step.ClientWrites? || step.ClientAppends?)
    ensures SourcesKnown(Do(cfg, s, step))
  {
    if step.token in s.tokens {
      var p := step.token.primary;
      var r := if step.ClientWrites?
               then ClientWrite(cfg, p, CopyAt(s, p), s.now, step.token, step.servers, step.offset, step.data)
               else ClientAppend(cfg, p, CopyAt(s, p), s.now, step.token, step.servers, step.data);
      StoreKeepsSourcesKnown(s, Do(cfg, s, step), p, r);
    }
  }

  lemma SourcesStayKnown(cfg: Config, s: State, step: Step)
    requires cfg.Valid() && SourcesKnown(s)
    ensures SourcesKnown(Do(cfg, s, step))
  {
    match step
    case CopyTo(source, version, target) => CopyKeepsSourcesKnown(cfg, s, source, version, target);
    case Deliver(e) => DeliverKeepsSourcesKnown(cfg, s, e);
    case ClientWrites(_, _, _, _) => ClientKeepsSourcesKnown(cfg, s, step);
    case ClientAppends(_, _, _) => ClientKeepsSourcesKnown(cfg, s, step);
    case _ => assert forall v :: Taken(s, v) ==> Taken(Do(cfg, s, step), v);
  }

  lemma {:induction false} RunKeepsInv(cfg: Config, s: State, steps: seq<Step>)
    requires cfg.Valid() && Inv(cfg, s) && SourcesKnown(s) && AllowedRun(cfg, s, steps)
    ensures Inv(cfg, Run(cfg, s, steps)) && SourcesKnown(Run(cfg, s, steps))
    decreases |steps|
  {
    if steps != [] {
      StepKeepsInv(cfg, s, steps[0]);
      SourcesStayKnown(cfg, s, steps[0]);
      RunKeepsInv(cfg, Do(cfg, s, steps[0]), steps[1..]);
    }
  }

  lemma ReachableStatesAreSafe(cfg: Config, s: State)
    requires cfg.Valid() && Reachable(cfg, s)
    ensures Inv(cfg, s) && SourcesKnown(s)
  {
    var steps :| AllowedRun(cfg, Init, steps) && Run(cfg, Init, steps) == s;
    RunKeepsInv(cfg, Init, steps);
  }

  lemma {:induction false} RunInTwo(cfg: Config, s: State, a: seq<Step>, step: Step)
    requires cfg.Valid() && AllowedRun(cfg, s, a) && Allowed(cfg, Run(cfg, s, a), step)
    ensures AllowedRun(cfg, s, a + [step]) && Run(cfg, s, a + [step]) == Do(cfg, Run(cfg, s, a), step)
    decreases |a|
  {
    if a == [] {
      assert [step][1..] == [];
    } else {
      assert (a + [step])[0] == a[0] && (a + [step])[1..] == a[1..] + [step];
      RunInTwo(cfg, Do(cfg, s, a[0]), a[1..], step);
    }
  }

  lemma ReachableStep(cfg: Config, s: State, step: Step)
    requires cfg.Valid() && Reachable(cfg, s) && Allowed(cfg, s, step)
    ensures Reachable(cfg, Do(cfg, s, step))
  {
    var steps :| AllowedRun(cfg, Init, steps) && Run(cfg, Init, steps) == s;
    RunInTwo(cfg, Init, steps, step);
  }

  /** The grant clause of `Allowed`, carried over a run: running leases name one server. */
  lemma OnePrimaryAtATime(cfg: Config, s: State, t: Token, u: Token)
    requires cfg.Valid() && Reachable(cfg, s)
    requires t in s.tokens && u in s.tokens && s.now <= t.until && s.now <= u.until
    ensures t.primary == u.primary
  {
    ReachableStatesAreSafe(cfg, s);
  }

  // ---- Main results ----

  /** Same version, same bytes: any two copies that are not recovering and carry the same version
      are equal, and so is what a client reads from them. */
  lemma SameVersionSameBytes(cfg: Config, s: State, m: int, n: int)
    requires cfg.Valid() && Reachable(cfg, s)
    requires m in s.copies && n in s.copies
    requires s.copies[m].recovery.None? && s.copies[n].recovery.None?
    requires s.copies[m].version == s.copies[n].version
    ensures s.copies[m] == s.copies[n]
    ensures |s.copies[m].file| == s.copies[m].size
  {
    ReachableStatesAreSafe(cfg, s);
  }

  /** A recovery that completes leaves exactly the bytes its source held at that version, whichever
      of the overlapping, repeated or reordered recoveries the chunks came from. */
  lemma RecoveredCopyEqualsItsSource(cfg: Config, s: State, e: Envelope)
    requires cfg.Valid() && Reachable(cfg, s)
    requires e in s.net && e.msg.RecoverBlockComplete? && e.to in s.copies
    requires RecoveryDone(s.copies[e.to], e.msg.version)
    ensures var c := Do(cfg, s, Deliver(e)).copies[e.to];
            && c.version == e.msg.version && c.recovery.None?
            && (exists p :: p in s.snapshots && p.version == c.version && c.file == p.bytes && c.size == |p.bytes|)
            && (forall p :: p in s.snapshots && p.version == c.version ==> c.file == p.bytes)
  {
    ReachableStatesAreSafe(cfg, s);
    CompletedCopyOk(cfg, s.history, s.copies[e.to], e.msg.version);
    var p :| p in s.snapshots && p.version == e.msg.version;
  }

  /** The chunk flag a server sets always exists: the caller's side of RecoverController.Recover. */
  lemma ChunksStayInsideTheRecovery(cfg: Config, s: State, e: Envelope)
    requires cfg.Valid() && Reachable(cfg, s)
    requires e in s.net && e.msg.RecoverBlockData? && e.to in s.copies
    requires s.copies[e.to].recovery.Some? && s.copies[e.to].recovery.value.version == e.msg.version
    ensures e.msg.offset / cfg.batch < |s.copies[e.to].recovery.value.flags|
  {
    ReachableStatesAreSafe(cfg, s);
    ReceivedChunkOk(cfg, s.history, s.copies[e.to], e.msg);
  }

  /** Across changes of primary every successful client call mints a version above all earlier
      ones; nothing else mints, and what a version stands for never changes. */
  lemma MintedVersionsAreFresh(cfg: Config, s: State, step: Step)
    requires cfg.Valid() && Reachable(cfg, s)
    ensures var s' := Do(cfg, s, step);
            && (forall v :: v in s.history ==> v in s'.history && s'.history[v] == s.history[v])
            && (forall v :: v in s'.history && v !in s.history ==>
                  && (step.ClientWrites? || step.ClientAppends?)
                  && Above(s.history, v)
                  && VersionAt(s', step.token.primary) == v && s'.copies[step.token.primary].file == s'.history[v])
  {
    ReachableStatesAreSafe(cfg, s);
    var s' := Do(cfg, s, step);
    match step
    case ClientWrites(token, servers, offset, data) =>
      if token in s.tokens {
        ClientWriteOk(cfg, s, token, servers, offset, data);
      }
    case ClientAppends(token, servers, data) =>
      if token in s.tokens {
        ClientAppendOk(cfg, s, token, servers, data);
      }
    case Deliver(e) =>
      if e in s.net && !e.msg.UpdateBlock? && !e.msg.ReportBlock? {
        DeliverOk(cfg, s, e);
      }
    case _ =>
  }
}
