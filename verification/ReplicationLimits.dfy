/** Runs that show the assumptions on the environment are needed: one forbidden step from a
    reachable state, and two idle copies carry one version and different bytes. */
module ReplicationLimits {
  import opened Common
  import opened CopySpec
  import opened NodeSpec
  import opened Replication
  import opened ReplicationSafety
  import M = MasterSpec
  import Arith

  const TINY: Config := Config(1, 4, 10)

  ghost predicate Conflict(s: State, m: int, n: int) {
    && m in s.copies && n in s.copies
    && s.copies[m].recovery.None? && s.copies[n].recovery.None?
    && s.copies[m].version == s.copies[n].version && s.copies[m].file != s.copies[n].file
  }

  const FIRST: int := M.HIGH_WORD
  const FIVE: Copy := Copy(FIRST, 1, [5], None)
  const TOKEN_1: Token := Token(1, 10, 0, FIRST)
  const TOKEN_2: Token := Token(2, 21, 0, FIRST)

  lemma FirstGrant() returns (s: State)
    ensures TINY.Valid() && Reachable(TINY, s)
    ensures s.master == M.Master(0, FIRST, 10, 0, [M.Replica(1, 10, 0, false), M.Replica(2, 0, 0, false)])
    ensures s.tokens == {TOKEN_1} && s.now == 0 && s.copies == map[]
  {
    assert AllowedRun(TINY, Init, []) && Run(TINY, Init, []) == Init;
    var f := M.Fresh([1, 2]);
    assert f == [M.Replica(1, 0, 0, false), M.Replica(2, 0, 0, false)];
    var main := M.First(f, (r: M.Replica) => r.version == 0 && r.server in {1});
    assert f[0].server in {1};
    ReachableStep(TINY, Init, Grant({1}, [1, 2]));
    s := Do(TINY, Init, Grant({1}, [1, 2]));
  }

  /** Server 1 has been granted the block and has appended one chunk; nothing has been delivered. */
  lemma FirstAppend() returns (s: State)
    ensures TINY.Valid() && Reachable(TINY, s)
    ensures s.master == M.Master(0, FIRST, 10, 0, [M.Replica(1, 10, 0, false), M.Replica(2, 0, 0, false)])
    ensures s.tokens == {TOKEN_1} && s.now == 0
    ensures s.copies == map[1 := FIVE]
    ensures Envelope(2, AppendNotify(0, FIRST, [5])) in s.net && Envelope(4, AppendNotify(0, FIRST, [5])) in s.net
  {
    s := FirstGrant();
    var append := ClientAppends(TOKEN_1, [2, 4], [5]);
    ReachableStep(TINY, s, append);
    assert [] + [5] == [5];
    var out := FanOut([2, 4], AppendNotify(0, FIRST, [5]));
    assert out[0] in out && out[1] in out;
    s := Do(TINY, s, append);
  }

  /** Run-out lease, none of its writes reported: the next primary mints the same version again. */
  lemma UnreportedLeaseBreaksSafety()
    ensures TINY.Valid()
    ensures exists s, usable :: Reachable(TINY, s) && (forall t :: t in s.tokens ==> t.until < s.now)
              && Conflict(Do(TINY, Do(TINY, s, Grant(usable, [])), ClientAppends(TOKEN_2, [], [6])), 1, 2)
  {
    var s := FirstAppend();
    ReachableStep(TINY, s, Tick(11));
    s := Do(TINY, s, Tick(11));
    var main := M.First(s.master.replicas, (r: M.Replica) => r.version == 0 && r.server in {2});
    assert s.master.replicas[1].server in {2};
    var t := Do(TINY, s, Grant({2}, []));
    assert TOKEN_2 in t.tokens && CopyAt(t, 2) == None && NewCopy.file + [6] == [6];
    var s' := Do(TINY, t, ClientAppends(TOKEN_2, [], [6]));
    assert s'.copies[1].file[0] == 5 && s'.copies[2].file[0] == 6;
    assert Conflict(s', 1, 2);
  }

  const LAGGING: M.Master := M.Master(FIRST, FIRST, 10, 1, [M.Replica(1, 10, 0, false), M.Replica(2, 0, FIRST, false)])

  /** Leaseholder 1 has written and replica 2 has applied the write. */
  lemma ReplicaFollows() returns (s: State)
    ensures TINY.Valid() && Reachable(TINY, s) && s.now == 0 && s.tokens == {TOKEN_1}
    ensures s.master == M.Master(0, FIRST, 10, 0, [M.Replica(1, 10, 0, false), M.Replica(2, 0, 0, false)])
    ensures s.copies == map[1 := FIVE, 2 := FIVE]
    ensures Envelope(MASTER_NODE, UpdateBlock(2, FIRST, 1, false)) in s.net
  {
    var s0 := FirstAppend();
    assert [] + [5] == [5];
    var notify := Envelope(2, AppendNotify(0, FIRST, [5]));
    ReachableStep(TINY, s0, Deliver(notify));
    s := Do(TINY, s0, Deliver(notify));
  }

  lemma ReplicaReports() returns (s: State)
    ensures TINY.Valid() && Reachable(TINY, s) && s.now == 0 && s.tokens == {TOKEN_1} && s.master == LAGGING
    ensures s.copies == map[1 := FIVE, 2 := FIVE]
  {
    var s0 := ReplicaFollows();
    var report := Envelope(MASTER_NODE, UpdateBlock(2, FIRST, 1, false));
    ReachableStep(TINY, s0, Deliver(report));
    var replica := M.First(s0.master.replicas, (r: M.Replica) => r.server == 2);
    assert s0.master.replicas[1].server == 2;
    s := Do(TINY, s0, Deliver(report));
  }

  lemma SecondIsChosen()
    ensures M.MainReplica(LAGGING.replicas, FIRST, {1, 2}, 0) == Some(1)
  {
    var live := M.First(LAGGING.replicas, (r: M.Replica) => r.version == FIRST && r.lease > 0);
    var main := M.First(LAGGING.replicas, (r: M.Replica) => r.version == FIRST && r.server in {1, 2});
    assert LAGGING.replicas[1].server in {1, 2};
  }

  /** Leaseholder 1 has written and its replica has reported, but its own report is still on the
      way: the master passes it over and grants a second lease while the first is running. */
  lemma LaggingLeaseholderIsPassedOver() returns (s: State, s': State)
    ensures TINY.Valid() && Reachable(TINY, s) && s' == Do(TINY, s, Grant({1, 2}, []))
    ensures s'.now == 0 && TOKEN_1 in s'.tokens && SECOND in s'.tokens
    ensures s'.copies == map[1 := FIVE, 2 := FIVE]
  {
    s := ReplicaReports();
    SecondIsChosen();
    s' := Do(TINY, s, Grant({1, 2}, []));
  }

  const SECOND: Token := Token(2, 10, FIRST, 2 * M.HIGH_WORD)

  ghost predicate EndsInConflict(s1: State) {
    TINY.Valid() &&
    var s2 := Do(TINY, s1, ClientAppends(SECOND, [1], [6]));
    var s3 := Do(TINY, s2, Deliver(Envelope(1, AppendNotify(FIRST, 2 * M.HIGH_WORD, [6]))));
    var s4 := Do(TINY, s3, ClientAppends(TOKEN_1, [], [8]));
    Conflict(Do(TINY, s4, ClientAppends(SECOND, [], [9])), 1, 2)
  }

  lemma BothMintOneVersion(s1: State)
    requires TINY.Valid() && s1.now == 0 && TOKEN_1 in s1.tokens && SECOND in s1.tokens
    requires s1.copies == map[1 := FIVE, 2 := FIVE]
    ensures EndsInConflict(s1)
  {
    var s3 := SecondPrimaryWrites(s1);
    var s4 := Do(TINY, s3, ClientAppends(TOKEN_1, [], [8]));
    assert s4.copies[1].file[2] == 8;
    var s5 := Do(TINY, s4, ClientAppends(SECOND, [], [9]));
    assert s5.copies[2].file[2] == 9;
  }

  /** Two leases running at once: the second primary's write reaches the first, which then mints
      the version the second primary mints next. */
  lemma TwoRunningLeasesBreakSafety()
    ensures TINY.Valid()
    ensures exists s, usable :: Reachable(TINY, s) && 1 in usable && EndsInConflict(Do(TINY, s, Grant(usable, [])))
  {
    var s, s1 := LaggingLeaseholderIsPassedOver();
    BothMintOneVersion(s1);
  }

  lemma SecondPrimaryWrites(s1: State) returns (s3: State)
    requires TINY.Valid() && s1.now == 0 && TOKEN_1 in s1.tokens && SECOND in s1.tokens
    requires s1.copies == map[1 := FIVE, 2 := FIVE]
    ensures s3 == Do(TINY, Do(TINY, s1, ClientAppends(SECOND, [1], [6])),
                     Deliver(Envelope(1, AppendNotify(FIRST, 2 * M.HIGH_WORD, [6]))))
    ensures s3.now == 0 && s3.tokens == s1.tokens
    ensures s3.copies == map[1 := Copy(2 * M.HIGH_WORD, 2, [5, 6], None), 2 := Copy(2 * M.HIGH_WORD, 2, [5, 6], None)]
  {
    assert [5] + [6] == [5, 6];
    var s2 := Do(TINY, s1, ClientAppends(SECOND, [1], [6]));
    var notify := Envelope(1, AppendNotify(FIRST, 2 * M.HIGH_WORD, [6]));
    var out := FanOut([1], notify.msg);
    assert out[0] in out && notify in s2.net;
    s3 := Do(TINY, s2, Deliver(notify));
  }

  lemma OneChunkCopy(version: int, data: Bytes)
    requires |data| == 1
    ensures CopyMessages(version, 1, data, 1) ==
              [StartRecoverBlock(version, 1), RecoverBlockData(version, 0, data), RecoverBlockComplete(version)]
  {
    assert Chunks(version, data, 1, 1) == [];
    assert data[0..1] == data;
  }

  lemma OneChunkReceived(t: Copy, version: int, data: Bytes)
    requires |data| == 1 && t.version < version && t.recovery.None?
    ensures RecoverData(Resize(t, version, 1, 1), version, 0, data, 1) ==
              Copy(t.version, t.size, data, Some(Recovery(version, 1, [true])))
  {
    var c := Resize(t, version, 1, 1);
    var c' := RecoverData(c, version, 0, data, 1);
    assert |c.file| == 1 && c'.file[0..1] == data;
    assert c'.file == data;
    assert NewRecovery(version, 1, 1).flags == [false];
    assert c'.recovery.value.flags == [true];
  }

  lemma AnnouncedCopy(s: State, source: int, target: int, version: int, data: Bytes) returns (s': State)
    requires TINY.Valid() && source in s.copies && |data| == 1 && 0 <= version
    requires s.copies[source].version == version && s.copies[source].size == 1 && s.copies[source].file == data
    ensures s' == Do(TINY, s, CopyTo(source, 0, target)) && s'.copies == s.copies
    ensures Envelope(target, StartRecoverBlock(version, 1)) in s'.net
            && Envelope(target, RecoverBlockData(version, 0, data)) in s'.net
    ensures Envelope(target, RecoverBlockComplete(version)) in s'.net
  {
    OneChunkCopy(version, data);
    var msgs := CopyMessages(version, 1, data, 1);
    assert msgs[0] in msgs && msgs[1] in msgs && msgs[2] in msgs;
    s' := Do(TINY, s, CopyTo(source, 0, target));
  }

  lemma CopyAndTwoDeliveriesReach(s: State, source: int, target: int, version: int, data: Bytes)
    requires TINY.Valid() && Reachable(TINY, s) && source in s.copies && s.copies[source].recovery.None?
    requires |data| == 1 && 0 <= version
    requires s.copies[source].version == version && s.copies[source].size == 1 && s.copies[source].file == data
    ensures Reachable(TINY, Do(TINY, Do(TINY, Do(TINY, s, CopyTo(source, 0, target)),
                                        Deliver(Envelope(target, StartRecoverBlock(version, 1)))),
                               Deliver(Envelope(target, RecoverBlockData(version, 0, data)))))
  {
    var s1 := AnnouncedCopy(s, source, target, version, data);
    var s2 := Do(TINY, s1, Deliver(Envelope(target, StartRecoverBlock(version, 1))));
    ReachableStep(TINY, s, CopyTo(source, 0, target));
    ReachableStep(TINY, s1, Deliver(Envelope(target, StartRecoverBlock(version, 1))));
    ReachableStep(TINY, s2, Deliver(Envelope(target, RecoverBlockData(version, 0, data))));
  }

  /** One chunk, one recovery: what the target holds once the announcement and the data are in. */
  lemma HalfCopy(s: State, source: int, target: int, version: int, data: Bytes) returns (s': State)
    requires TINY.Valid() && source in s.copies && source != target && |data| == 1
    requires s.copies[source].version == version && s.copies[source].size == 1 && s.copies[source].file == data
             && 0 <= version
    requires var t := GetOrCreate(CopyAt(s, target)); t.version < version && t.recovery.None? && |t.file| <= 1
    ensures s' == Do(TINY, Do(TINY, Do(TINY, s, CopyTo(source, 0, target)),
                              Deliver(Envelope(target, StartRecoverBlock(version, 1)))),
                     Deliver(Envelope(target, RecoverBlockData(version, 0, data))))
    ensures var t := GetOrCreate(CopyAt(s, target));
            s'.copies == s.copies[target := Copy(t.version, t.size, data, Some(Recovery(version, 1, [true])))]
    ensures Envelope(target, RecoverBlockComplete(version)) in s'.net
    ensures Reachable(TINY, s) && s.copies[source].recovery.None? ==> Reachable(TINY, s')
  {
    var s1 := AnnouncedCopy(s, source, target, version, data);
    var s2 := Do(TINY, s1, Deliver(Envelope(target, StartRecoverBlock(version, 1))));
    s' := Do(TINY, s2, Deliver(Envelope(target, RecoverBlockData(version, 0, data))));
    OneChunkReceived(GetOrCreate(CopyAt(s, target)), version, data);
    if Reachable(TINY, s) && s.copies[source].recovery.None? {
      CopyAndTwoDeliveriesReach(s, source, target, version, data);
    }
  }

  ghost predicate Consistent(cfg: Config, h: map<int, Bytes>, c: Copy)
    requires cfg.Valid()
  {
    HistoryOk(cfg, h) && CopyOk(cfg, h, c)
  }

  /** The bytes of a copy's own version are gone once its recovery has overwritten them. */
  lemma UnsafeSourceSendsOthersBytes(cfg: Config, h: map<int, Bytes>, c: Copy) returns (h': map<int, Bytes>, m: Msg)
    requires cfg.Valid() && Consistent(cfg, h, c) && !SafeToCopy(c)
    ensures Consistent(cfg, h', c) && m in CopyMessages(c.version, c.size, c.file, cfg.batch) && !MsgOk(cfg, h', m)
  {
    var first: byte := if c.file[0] == 0 then 1 else 0;
    var other := c.file[0 := first];
    h' := map[0 := [], c.version := other, c.recovery.value.version := c.file];
    Arith.WholeChunkFits(c.size, 0, cfg.batch);
    m := RecoverBlockData(c.version, 0, c.file[0..cfg.batch]);
    assert m == Chunks(c.version, c.file, 0, cfg.batch)[0];
    assert m.data[0] != h'[c.version][0..cfg.batch][0];
  }

  /** What a server sends when asked to copy a block is authentic, whatever its versions stood for,
      exactly if it is not recovering that block to its own positive size. */
  lemma SourceIsAuthenticIff(cfg: Config, c: Copy)
    requires cfg.Valid() && exists h :: Consistent(cfg, h, c)
    ensures SafeToCopy(c) <==>
              forall h, m :: Consistent(cfg, h, c) && m in CopyMessages(c.version, c.size, c.file, cfg.batch) ==>
                MsgOk(cfg, h, m)
  {
    if SafeToCopy(c) {
      forall h | Consistent(cfg, h, c)
        ensures forall m :: m in CopyMessages(c.version, c.size, c.file, cfg.batch) ==> MsgOk(cfg, h, m)
      {
        SourceOk(cfg, h, c);
      }
    } else {
      var h :| Consistent(cfg, h, c);
      var h', m := UnsafeSourceSendsOthersBytes(cfg, h, c);
    }
  }

  /** A server that is asked to copy while its own recovery is half done sends the bytes of the new
      version under the old one. */
  lemma RecoveringSourceBreaksSafety()
    ensures TINY.Valid()
    ensures exists s, v, data :: Reachable(TINY, s) && 2 in s.copies && !SafeToCopy(s.copies[2])
              && Conflict(Run(TINY, s, [CopyTo(2, 0, 3), Deliver(Envelope(3, StartRecoverBlock(v, 1))),
                                        Deliver(Envelope(3, RecoverBlockData(v, 0, data))),
                                        Deliver(Envelope(3, RecoverBlockComplete(v)))]), 3, 4)
  {
    var s0 := TwoReplicas();
    var s := HalfCopy(s0, 1, 2, FIRST + 1, [7]);
    SpoiledCopy(s);
  }

  lemma SpoiledCopy(s: State)
    requires TINY.Valid() && s.copies.Keys == {1, 2, 4}
    requires s.copies[2] == Copy(FIRST, 1, [7], Some(Recovery(FIRST + 1, 1, [true])))
    requires s.copies[4] == FIVE
    ensures Conflict(Run(TINY, s, [CopyTo(2, 0, 3), Deliver(Envelope(3, StartRecoverBlock(FIRST, 1))),
                                   Deliver(Envelope(3, RecoverBlockData(FIRST, 0, [7]))),
                                   Deliver(Envelope(3, RecoverBlockComplete(FIRST)))]), 3, 4)
  {
    var s3 := HalfCopy(s, 2, 3, FIRST, [7]);
    var last := Deliver(Envelope(3, RecoverBlockComplete(FIRST)));
    var s4 := Do(TINY, s3, last);
    assert s4.copies[3].file[0] == 7 && s4.copies[4].file[0] == 5;
    FourSteps(s, CopyTo(2, 0, 3), Deliver(Envelope(3, StartRecoverBlock(FIRST, 1))),
              Deliver(Envelope(3, RecoverBlockData(FIRST, 0, [7]))), last);
  }

  lemma BothApply() returns (s: State)
    ensures TINY.Valid() && Reachable(TINY, s) && s.now == 0 && s.tokens == {TOKEN_1}
    ensures s.copies == map[1 := FIVE, 2 := FIVE, 4 := FIVE]
  {
    var s0 := FirstAppend();
    assert [] + [5] == [5];
    var to2 := Deliver(Envelope(2, AppendNotify(0, FIRST, [5])));
    var to4 := Deliver(Envelope(4, AppendNotify(0, FIRST, [5])));
    ReachableStep(TINY, s0, to2);
    var s1 := Do(TINY, s0, to2);
    ReachableStep(TINY, s1, to4);
    s := Do(TINY, s1, to4);
  }

  /** Two replicas of the first append, and a later overwrite that only the primary has. */
  lemma TwoReplicas() returns (s: State)
    ensures TINY.Valid() && Reachable(TINY, s)
    ensures s.copies == map[1 := Copy(FIRST + 1, 1, [7], None), 2 := FIVE, 4 := FIVE]
  {
    var s0 := BothApply();
    var overwrite := ClientWrites(TOKEN_1, [], 0, [7]);
    ReachableStep(TINY, s0, overwrite);
    s := Do(TINY, s0, overwrite);
    assert s.copies[1].file == [7];
  }

  lemma FourSteps(s: State, a: Step, b: Step, c: Step, d: Step)
    requires TINY.Valid()
    ensures Run(TINY, s, [a, b, c, d]) == Do(TINY, Do(TINY, Do(TINY, Do(TINY, s, a), b), c), d)
  {
    var steps := [a, b, c, d];
    assert steps[1..] == [b, c, d] && [b, c, d][1..] == [c, d] && [c, d][1..] == [d] && [d][1..] == [];
    var s1 := Do(TINY, s, a);
    var s2 := Do(TINY, s1, b);
    var s3 := Do(TINY, s2, c);
    assert Run(TINY, s3, [d]) == Run(TINY, Do(TINY, s3, d), []);
    assert Run(TINY, s2, [c, d]) == Run(TINY, s3, [d]);
    assert Run(TINY, s1, [b, c, d]) == Run(TINY, s2, [c, d]);
  }
}
