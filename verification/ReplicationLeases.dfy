/** Why one report for each lease is enough: the versions minted from a lease's first one on leave no
    gap. */
module ReplicationLeases {
  import opened Common
  import opened CopySpec
  import opened NodeSpec
  import opened Replication
  import opened ReplicationSafety
  import M = MasterSpec

  /** All versions from `base`, a multiple of 2^32, up to `version` have been minted. */
  ghost predicate Stretch(h: map<int, Bytes>, base: int, version: int) {
    0 <= base <= version && base % M.HIGH_WORD == 0 && forall v :: base <= v <= version ==> v in h
  }

  /** Where a lease begins; version 0 is there from the start. */
  ghost predicate IsBase(s: State, base: int) {
    base == 0 || exists t :: t in s.tokens && t.newVersion == base
  }

  ghost predicate Founded(s: State, version: int) {
    exists base :: IsBase(s, base) && Stretch(s.history, base, version)
  }

  ghost predicate NewOrMinted(h: map<int, Bytes>, version: int) {
    0 <= version && (version % M.HIGH_WORD == 0 || version in h)
  }

  ghost predicate LeasesFounded(s: State) {
    && (forall v :: v in s.history ==> Founded(s, v))
    && (forall t :: t in s.tokens ==> NewOrMinted(s.history, t.newVersion))
    && NewOrMinted(s.history, s.master.expectVersion) && s.master.version in s.history
  }

  lemma FoundedStays(s: State, s': State, version: int)
    requires Founded(s, version) && s.tokens <= s'.tokens && Extends(s.history, s'.history)
    ensures Founded(s', version)
  {
    var base :| IsBase(s, base) && Stretch(s.history, base, version);
    assert IsBase(s', base) && Stretch(s'.history, base, version);
  }

  lemma AllStayFounded(s: State, s': State)
    requires LeasesFounded(s) && s'.tokens == s.tokens && s'.history == s.history
    requires s'.master.expectVersion == s.master.expectVersion || NewOrMinted(s.history, s'.master.expectVersion)
    requires s'.master.version in s.history
    ensures LeasesFounded(s')
  {
    forall v | v in s'.history
      ensures Founded(s', v)
    {
      FoundedStays(s, s', v);
    }
  }

  /** A minted version begins a lease or follows the one its server had. */
  lemma MintIsFounded(cfg: Config, s: State, s': State, token: Token, version: int, bytes: Bytes)
    requires cfg.Valid() && Inv(cfg, s) && LeasesFounded(s) && token in s.tokens
    requires version == Bump(VersionAt(s, token.primary), token.newVersion, false) && Above(s.history, version)
    requires s'.tokens == s.tokens && s'.master == s.master && s'.history == s.history[version := bytes]
    ensures LeasesFounded(s')
  {
    var before := VersionAt(s, token.primary);
    assert Extends(s.history, s'.history);
    forall v | v in s'.history
      ensures Founded(s', v)
    {
      if v in s.history {
        FoundedStays(s, s', v);
      } else if before < token.newVersion {
        assert IsBase(s', version) && Stretch(s'.history, version, version);
      } else {
        assert before in s.history && Founded(s, before);
        var base :| IsBase(s, base) && Stretch(s.history, base, before);
        assert IsBase(s', base) && Stretch(s'.history, base, version);
      }
    }
  }

  lemma WriteKeepsFounded(cfg: Config, s: State, token: Token, servers: seq<int>, offset: nat, data: Bytes)
    requires cfg.Valid() && Inv(cfg, s) && LeasesFounded(s) && token in s.tokens
    ensures LeasesFounded(Do(cfg, s, ClientWrites(token, servers, offset, data)))
  {
    var r := ClientWrite(cfg, token.primary, CopyAt(s, token.primary), s.now, token, servers, offset, data);
    var s' := Do(cfg, s, ClientWrites(token, servers, offset, data));
    ClientWriteOk(cfg, s, token, servers, offset, data);
    if r.code == Success {
      MintIsFounded(cfg, s, s', token, r.copy.value.version, r.copy.value.file);
    } else {
      AllStayFounded(s, s');
    }
  }

  lemma AppendKeepsFounded(cfg: Config, s: State, token: Token, servers: seq<int>, data: Bytes)
    requires cfg.Valid() && Inv(cfg, s) && LeasesFounded(s) && token in s.tokens
    ensures LeasesFounded(Do(cfg, s, ClientAppends(token, servers, data)))
  {
    var r := ClientAppend(cfg, token.primary, CopyAt(s, token.primary), s.now, token, servers, data);
    var s' := Do(cfg, s, ClientAppends(token, servers, data));
    ClientAppendOk(cfg, s, token, servers, data);
    if r.code == Success {
      MintIsFounded(cfg, s, s', token, r.copy.value.version, r.copy.value.file);
    } else {
      AllStayFounded(s, s');
    }
  }

  lemma NextVersionBeginsALease(version: int)
    ensures 0 <= M.NextVersion(version) && M.NextVersion(version) % M.HIGH_WORD == 0
  {
  }

  lemma GrantKeepsFounded(cfg: Config, s: State, usable: set<int>, distributed: seq<int>)
    requires cfg.Valid() && LeasesFounded(s)
    ensures LeasesFounded(Do(cfg, s, Grant(usable, distributed)))
  {
    var s' := Do(cfg, s, Grant(usable, distributed));
    NextVersionBeginsALease(s.master.version);
    assert s'.master.expectVersion == s.master.expectVersion
           || s'.master.expectVersion == M.NextVersion(s.master.version);
    forall v | v in s'.history
      ensures Founded(s', v)
    {
      FoundedStays(s, s', v);
    }
  }

  lemma DeliverKeepsFounded(cfg: Config, s: State, e: Envelope)
    requires cfg.Valid() && Inv(cfg, s) && LeasesFounded(s)
    ensures LeasesFounded(Do(cfg, s, Deliver(e)))
  {
    if e in s.net {
      assert MsgOk(cfg, s.history, e.msg);
      AllStayFounded(s, Do(cfg, s, Deliver(e)));
    }
  }

  lemma StepKeepsFounded(cfg: Config, s: State, step: Step)
    requires cfg.Valid() && Inv(cfg, s) && LeasesFounded(s)
    ensures LeasesFounded(Do(cfg, s, step))
  {
    match step
    case Grant(usable, distributed) => GrantKeepsFounded(cfg, s, usable, distributed);
    case ClientWrites(token, servers, offset, data) =>
      if token in s.tokens {
        WriteKeepsFounded(cfg, s, token, servers, offset, data);
      }
    case ClientAppends(token, servers, data) =>
      if token in s.tokens {
        AppendKeepsFounded(cfg, s, token, servers, data);
      }
    case Deliver(e) => DeliverKeepsFounded(cfg, s, e);
    case _ => AllStayFounded(s, Do(cfg, s, step));
  }

  lemma {:induction false} RunKeepsFounded(cfg: Config, s: State, steps: seq<Step>)
    requires cfg.Valid() && Inv(cfg, s) && LeasesFounded(s) && AllowedRun(cfg, s, steps)
    ensures Inv(cfg, Run(cfg, s, steps)) && LeasesFounded(Run(cfg, s, steps))
    decreases |steps|
  {
    if steps != [] {
      StepKeepsInv(cfg, s, steps[0]);
      StepKeepsFounded(cfg, s, steps[0]);
      RunKeepsFounded(cfg, Do(cfg, s, steps[0]), steps[1..]);
    }
  }

  /** The master has seen a version of every lease under which anything was minted, and no lease has
      minted 2^32 versions in a row. */
  ghost predicate LeasesReported(s: State) {
    && (forall base :: IsBase(s, base) && base in s.history ==> base <= s.master.version)
    && (forall base, v :: IsBase(s, base) && Stretch(s.history, base, v) ==> v < base + M.HIGH_WORD)
  }

  /** Then it has seen the newest high word. */
  lemma ReportedLeasesSuffice(cfg: Config, s: State)
    requires cfg.Valid() && Inv(cfg, s) && LeasesFounded(s) && LeasesReported(s) && M.Hi(s.master.version) < M.HIGH_WORD
    ensures Reported(s) && 0 <= M.Hi(s.master.version)
  {
    forall v | v in s.history
      ensures M.Hi(v) <= M.Hi(s.master.version)
    {
      assert Founded(s, v);
      var base :| IsBase(s, base) && Stretch(s.history, base, v);
      M.OneReportPerLeaseSuffices(s.master.version, base, v - base);
      M.NextVersionIsAbove(s.master.version, v);
    }
  }

  lemma InitIsFounded()
    ensures LeasesFounded(Init)
  {
    assert IsBase(Init, 0) && Stretch(Init.history, 0, 0);
  }

  /** So it is in every reachable state. */
  lemma OneReportPerLeaseKeepsVersionsFresh(cfg: Config, s: State)
    requires cfg.Valid() && Reachable(cfg, s) && LeasesReported(s) && M.Hi(s.master.version) < M.HIGH_WORD
    ensures Reported(s)
  {
    var steps :| AllowedRun(cfg, Init, steps) && Run(cfg, Init, steps) == s;
    InitIsFounded();
    RunKeepsFounded(cfg, Init, steps);
    ReportedLeasesSuffice(cfg, s);
  }

  // ---- Main result: one report for each lease, and one live lease at a time ----

  /** The assumptions on a run in the terms of its leases: the clock does not run backwards; no lease
      is granted while another server's is running; and when one is started, the earlier ones have
      been reported, have minted fewer than 2^32 versions each, and fit 64 bits. A server asked to copy
      a block is not itself recovering it to the same positive size. */
  ghost predicate Orderly(cfg: Config, s: State, step: Step) {
    match step
    case Tick(now) => s.now <= now
    case Grant(usable, distributed) =>
      var g := MasterGrant(cfg, s, usable, distributed);
      g.main.Some? ==>
        && (forall t :: t in s.tokens && t.primary != Issue(g).primary ==> t.until < s.now)
        && (M.StartsLease(s.master, s.now, usable, distributed) ==>
              LeasesReported(s) && M.Hi(s.master.version) < M.HIGH_WORD)
    case CopyTo(source, version, target) => source in s.copies ==> SafeToCopy(s.copies[source])
    case _ => true
  }

  ghost predicate OrderlyRun(cfg: Config, s: State, steps: seq<Step>)
    requires cfg.Valid()
    decreases |steps|
  {
    steps != [] ==> Orderly(cfg, s, steps[0]) && OrderlyRun(cfg, Do(cfg, s, steps[0]), steps[1..])
  }

  lemma OrderlyIsAllowed(cfg: Config, s: State, step: Step)
    requires cfg.Valid() && Inv(cfg, s) && LeasesFounded(s) && Orderly(cfg, s, step)
    ensures Allowed(cfg, s, step)
  {
    if step.Grant? && LeasesReported(s) && M.Hi(s.master.version) < M.HIGH_WORD {
      ReportedLeasesSuffice(cfg, s);
    }
  }

  lemma {:induction false} OrderlyRunIsAllowed(cfg: Config, s: State, steps: seq<Step>)
    requires cfg.Valid() && Inv(cfg, s) && LeasesFounded(s) && OrderlyRun(cfg, s, steps)
    ensures AllowedRun(cfg, s, steps)
    decreases |steps|
  {
    if steps != [] {
      OrderlyIsAllowed(cfg, s, steps[0]);
      StepKeepsInv(cfg, s, steps[0]);
      StepKeepsFounded(cfg, s, steps[0]);
      OrderlyRunIsAllowed(cfg, Do(cfg, s, steps[0]), steps[1..]);
    }
  }

  /** After any such run, copies that carry one version and are not recovering are equal. */
  lemma OrderlyRunsAreSafe(cfg: Config, steps: seq<Step>, m: int, n: int)
    requires cfg.Valid() && OrderlyRun(cfg, Init, steps)
    requires var s := Run(cfg, Init, steps);
             && m in s.copies && n in s.copies && s.copies[m].version == s.copies[n].version
             && s.copies[m].recovery.None? && s.copies[n].recovery.None?
    ensures var s := Run(cfg, Init, steps); s.copies[m] == s.copies[n] && |s.copies[m].file| == s.copies[m].size
  {
    InitIsFounded();
    OrderlyRunIsAllowed(cfg, Init, steps);
    SameVersionSameBytes(cfg, Run(cfg, Init, steps), m, n);
  }
}
