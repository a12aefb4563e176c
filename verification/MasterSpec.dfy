/** The master's record of one block: newest version seen, version to hand out next, lease, size,
    and what it knows of each replica. */
module MasterSpec {
  import opened Common
  import Arith

  const HIGH_WORD: int := 0x1_0000_0000

  datatype Replica = Replica(server: int, lease: int, version: int, fault: bool)

  datatype Master = Master(version: int, expectVersion: int, lease: int, size: nat, replicas: seq<Replica>)

  const NewMaster: Master := Master(0, 0, 0, 0, [])

  function Hi(version: int): int {
    version / HIGH_WORD
  }

  /** The next multiple of 2^32; the mask keeps 32 bits of the high word. */
  function NextVersion(version: int): int {
    (Hi(version) % HIGH_WORD + 1) * HIGH_WORD
  }

  /** A new lease's version lies above an already minted one exactly if the master has seen a
      version with at least the same high word. */
  lemma NextVersionIsAbove(seen: int, minted: int)
    requires 0 <= Hi(seen) < HIGH_WORD
    ensures minted < NextVersion(seen) <==> Hi(minted) <= Hi(seen)
  {
    assert seen / HIGH_WORD % HIGH_WORD == seen / HIGH_WORD;
  }

  /** It is the least multiple of 2^32 above the version seen, as long as 64 bits suffice. */
  lemma NextVersionIsLeast(seen: int)
    requires 0 <= seen < 0xFFFF_FFFF_0000_0000
    ensures NextVersion(seen) % 0x1_0000_0000 == 0 && seen < NextVersion(seen) <= seen + 0x1_0000_0000
  {
    assert seen / HIGH_WORD % HIGH_WORD == seen / HIGH_WORD;
  }

  /** Fewer than 2^32 writes under one lease stay in the lease's high word, so one report of any
      of them is enough for the next lease to be fresh. */
  lemma OneReportPerLeaseSuffices(seen: int, granted: int, writes: nat)
    requires granted % HIGH_WORD == 0 && 0 <= granted <= seen && Hi(seen) < HIGH_WORD
    requires writes < HIGH_WORD
    ensures granted + writes < NextVersion(seen)
  {
    var q := granted / HIGH_WORD;
    Arith.Quotient(granted + writes, q, writes, HIGH_WORD);
    assert Hi(granted + writes) <= Hi(seen);
    NextVersionIsAbove(seen, granted + writes);
  }

  /** Index of the first replica satisfying `p`. */
  function First(replicas: seq<Replica>, p: Replica -> bool): (r: Option<nat>)
    ensures r.Some? ==> r.value < |replicas| && p(replicas[r.value]) && forall j :: 0 <= j < r.value ==> !p(replicas[j])
    ensures r.None? ==> forall j :: 0 <= j < |replicas| ==> !p(replicas[j])
  {
    if replicas == [] then None
    else if p(replicas[0]) then Some(0)
    else
      var r := First(replicas[1..], p);
      if r.None? then
        assert forall j :: 0 < j < |replicas| ==> replicas[j] == replicas[1..][j - 1];
        None
      else
        assert forall j :: 0 < j <= r.value ==> replicas[j] == replicas[1..][j - 1];
        Some(r.value + 1)
  }

  /** The up-to-date replica whose lease is running, or failing that the first usable up-to-date
      one. A leaseholder on a broken server blocks the block. */
  function MainReplica(replicas: seq<Replica>, version: int, usable: set<int>, now: int): (r: Option<nat>)
    ensures r.Some? ==> r.value < |replicas|
  {
    var live := First(replicas, (r: Replica) => r.version == version && r.lease > now);
    if live.Some? then
      if replicas[live.value].server in usable then live else None
    else First(replicas, (r: Replica) => r.version == version && r.server in usable)
  }

  /** With one running lease, on a usable server, the leaseholder keeps the block exactly if its
      recorded version is the newest the master has seen: a lagging leaseholder is passed over. */
  lemma LeaseholderIsChosenIffUpToDate(replicas: seq<Replica>, version: int, usable: set<int>, now: int, h: nat)
    requires h < |replicas| && replicas[h].lease > now && replicas[h].server in usable
    requires forall j :: 0 <= j < |replicas| && j != h ==> replicas[j].lease <= now
    ensures MainReplica(replicas, version, usable, now) == Some(h) <==> replicas[h].version == version
  {
    if replicas[h].version == version {
      var live := First(replicas, (r: Replica) => r.version == version && r.lease > now);
      assert live.Some? && live.value == h;
    }
  }

  predicate Eligible(r: Replica, version: int, usable: set<int>) {
    r.version == version && r.server in usable
  }

  predicate HoldsNewest(r: Replica, version: int, now: int) {
    r.version == version && r.lease > now
  }

  /** The choice for any number of running leases: the first up-to-date leaseholder, if its server is
      usable; if there is none, the first up-to-date replica on a usable server. */
  lemma MainReplicaIff(replicas: seq<Replica>, version: int, usable: set<int>, now: int, i: nat)
    requires i < |replicas|
    ensures MainReplica(replicas, version, usable, now) == Some(i) <==>
              && Eligible(replicas[i], version, usable)
              && if replicas[i].lease > now
                 then forall j :: 0 <= j < i ==> !HoldsNewest(replicas[j], version, now)
                 else && (forall j :: 0 <= j < |replicas| ==> !HoldsNewest(replicas[j], version, now))
                      && (forall j :: 0 <= j < i ==> !Eligible(replicas[j], version, usable))
  {
    var live := First(replicas, (r: Replica) => r.version == version && r.lease > now);
    var other := First(replicas, (r: Replica) => r.version == version && r.server in usable);
    assert live.Some? ==> HoldsNewest(replicas[live.value], version, now);
    assert other.Some? ==> Eligible(replicas[other.value], version, usable);
  }

  function Others(replicas: seq<Replica>, server: int): seq<int> {
    if replicas == [] then []
    else (if replicas[0].server != server then [replicas[0].server] else []) + Others(replicas[1..], server)
  }

  /** How many of the first `i` replicas are on another server than `main`. */
  ghost function OthersBefore(replicas: seq<Replica>, main: int, i: nat): nat
    requires i <= |replicas|
  {
    |set j | 0 <= j < i && replicas[j].server != main|
  }

  /** Every replica on another server, each in order and as often as it occurs, and nothing else. */
  ghost predicate AreTheOthers(picked: seq<int>, replicas: seq<Replica>, main: int) {
    && |picked| == OthersBefore(replicas, main, |replicas|)
    && forall i :: 0 <= i < |replicas| && replicas[i].server != main ==>
         && OthersBefore(replicas, main, i) < |picked|
         && picked[OthersBefore(replicas, main, i)] == replicas[i].server
  }

  lemma OthersBeforeIs(replicas: seq<Replica>, replicas': seq<Replica>, main: int, i: nat)
    requires i <= |replicas| && i <= |replicas'|
    requires forall j :: 0 <= j < i ==> replicas'[j].server == replicas[j].server
    ensures OthersBefore(replicas', main, i) == OthersBefore(replicas, main, i)
    ensures i < |replicas| ==>
              OthersBefore(replicas, main, i + 1) ==
              OthersBefore(replicas, main, i) + if replicas[i].server == main then 0 else 1
  {
    var before := set j | 0 <= j < i && replicas[j].server != main;
    assert before == set j | 0 <= j < i && replicas'[j].server != main;
    if i < |replicas| {
      assert (set j | 0 <= j < i + 1 && replicas[j].server != main) ==
             if replicas[i].server == main then before else before + {i};
    }
  }

  lemma OneOtherMore(picked: seq<int>, replicas: seq<Replica>, main: int, r: Replica)
    requires AreTheOthers(picked, replicas, main)
    ensures AreTheOthers(if r.server == main then picked else picked + [r.server], replicas + [r], main)
  {
    var n, all, picked' := |replicas|, replicas + [r], if r.server == main then picked else picked + [r.server];
    OthersBeforeIs(replicas, all, main, n);
    OthersBeforeIs(all, all, main, n);
    assert |picked'| == OthersBefore(all, main, n + 1);
    forall i | 0 <= i < |all| && all[i].server != main
      ensures OthersBefore(all, main, i) < |picked'| && picked'[OthersBefore(all, main, i)] == all[i].server
    {
      if i < n {
        OthersBeforeIs(replicas, all, main, i);
        assert picked[OthersBefore(replicas, main, i)] == replicas[i].server;
      }
    }
  }

  lemma {:induction false} OthersOfOneMore(replicas: seq<Replica>, r: Replica, server: int)
    ensures Others(replicas + [r], server) ==
              if r.server == server then Others(replicas, server) else Others(replicas, server) + [r.server]
  {
    if replicas == [] {
      assert replicas + [r] == [r];
    } else {
      assert (replicas + [r])[1..] == replicas[1..] + [r];
      OthersOfOneMore(replicas[1..], r, server);
    }
  }

  lemma {:induction false} OthersAreTheOthers(replicas: seq<Replica>, server: int)
    ensures AreTheOthers(Others(replicas, server), replicas, server)
  {
    if replicas == [] {
      assert OthersBefore(replicas, server, 0) == 0;
    } else {
      var rest, r := replicas[..|replicas| - 1], replicas[|replicas| - 1];
      assert rest + [r] == replicas;
      OthersAreTheOthers(rest, server);
      OneOtherMore(Others(rest, server), rest, server, r);
      OthersOfOneMore(rest, r, server);
    }
  }

  function Fresh(servers: seq<int>): (r: seq<Replica>)
    ensures |r| == |servers|
  {
    seq(|servers|, i requires 0 <= i < |servers| => Replica(servers[i], 0, 0, false))
  }

  datatype Grant = Grant(master: Master, main: Option<nat>, others: seq<int>)

  /** Grants or repeats a write lease. `distributed` is the placement chosen for a block that has
      no replica yet. */
  function Write(m: Master, now: int, usable: set<int>, distributed: seq<int>, writeLease: nat): (g: Grant)
    ensures g.main.Some? ==> g.main.value < |g.master.replicas|
  {
    var replicas := if m.replicas == [] then Fresh(distributed) else m.replicas;
    var main := MainReplica(replicas, m.version, usable, now);
    if main.None? then Grant(m.(replicas := replicas), None, [])
    else
      var r := replicas[main.value];
      if r.lease <= now then
        var tick := now + writeLease;
        var renewed := replicas[main.value := r.(lease := tick)];
        Grant(m.(replicas := renewed, lease := tick, expectVersion := NextVersion(m.version)),
              main, Others(renewed, r.server))
      else Grant(m.(replicas := replicas), main, Others(replicas, r.server))
  }

  /** Whether such a call starts a new lease rather than repeating one that is still running. */
  predicate StartsLease(m: Master, now: int, usable: set<int>, distributed: seq<int>) {
    var replicas := if m.replicas == [] then Fresh(distributed) else m.replicas;
    var main := MainReplica(replicas, m.version, usable, now);
    main.Some? && replicas[main.value].lease <= now
  }

  /** Whether a lease is started or repeated, the answer names a replica with the newest version on a
      usable server, under a lease that is running, and every replica on another server. */
  lemma AnswerNamesEveryReplica(m: Master, now: int, usable: set<int>, distributed: seq<int>, writeLease: nat)
    requires 0 < writeLease
    ensures var g := Write(m, now, usable, distributed, writeLease);
            g.main.Some? ==>
              var r := g.master.replicas[g.main.value];
              && Eligible(r, m.version, usable) && now < r.lease
              && AreTheOthers(g.others, g.master.replicas, r.server)
    ensures var g := Write(m, now, usable, distributed, writeLease);
            var before := if m.replicas == [] then Fresh(distributed) else m.replicas;
            && |g.master.replicas| == |before|
            && forall i :: 0 <= i < |before| ==>
                 && g.master.replicas[i].server == before[i].server
                 && (Some(i) != g.main || before[i].lease > now ==> g.master.replicas[i] == before[i])
  {
    var g := Write(m, now, usable, distributed, writeLease);
    var before := if m.replicas == [] then Fresh(distributed) else m.replicas;
    if g.main.Some? {
      MainReplicaIff(before, m.version, usable, now, g.main.value);
      OthersAreTheOthers(g.master.replicas, before[g.main.value].server);
    }
  }

  /** While one replica's lease is running, another lease is started exactly if that replica's recorded
      version lags and some replica with the newest one is on a usable server; it goes to another
      replica. */
  lemma SecondLeaseStartsIff(m: Master, now: int, usable: set<int>, distributed: seq<int>, writeLease: nat, h: nat)
    requires h < |m.replicas| && m.replicas[h].lease > now
    requires forall j :: 0 <= j < |m.replicas| && j != h ==> m.replicas[j].lease <= now
    ensures StartsLease(m, now, usable, distributed) <==>
              && m.replicas[h].version != m.version
              && exists j :: 0 <= j < |m.replicas| && Eligible(m.replicas[j], m.version, usable)
    ensures StartsLease(m, now, usable, distributed) ==>
              var g := Write(m, now, usable, distributed, writeLease);
              && g.main.Some? && g.main.value != h && g.master.replicas[g.main.value].lease == now + writeLease
              && g.master.replicas[h] == m.replicas[h]
  {
    var live := First(m.replicas, (r: Replica) => r.version == m.version && r.lease > now);
    var other := First(m.replicas, (r: Replica) => r.version == m.version && r.server in usable);
    if m.replicas[h].version == m.version {
      assert live == Some(h);
    } else {
      assert live.None?;
      if other.None? {
        assert forall j :: 0 <= j < |m.replicas| ==> !Eligible(m.replicas[j], m.version, usable);
      } else {
        assert Eligible(m.replicas[other.value], m.version, usable);
      }
    }
  }

  /** What a report does once its replica has been found at index `i`; the result's second part is
      the block's new size, or 0 if it has not grown. */
  function Record(m: Master, i: nat, version: int, size: nat, fault: bool): (Master, nat)
    requires i < |m.replicas|
  {
    var m' := m.(replicas := m.replicas[i := m.replicas[i].(version := version, fault := fault)]);
    if fault then (m', 0)
    else
      var m'' := m'.(version := Max(m.version, version), expectVersion := Max(m.expectVersion, version));
      if m.size < size then (m''.(size := size), size) else (m'', 0)
  }

  function UpdateReplica(m: Master, server: int, version: int, size: nat, fault: bool): (Master, nat) {
    var i := First(m.replicas, (r: Replica) => r.server == server);
    if i.None? then (m, 0) else Record(m, i.value, version, size, fault)
  }

  function ReportReplica(m: Master, server: int, version: int, size: nat, fault: bool): (Master, nat) {
    var i := First(m.replicas, (r: Replica) => r.server == server);
    if i.Some? then Record(m, i.value, version, size, fault)
    else Record(m.(replicas := m.replicas + [Replica(server, 0, 0, false)]), |m.replicas|, version, size, fault)
  }

  ghost predicate IsFirst(replicas: seq<Replica>, server: int, i: nat) {
    i < |replicas| && replicas[i].server == server && forall j :: 0 <= j < i ==> replicas[j].server != server
  }

  /** A report about a known replica is written down, and what is newer or larger than anything known
      is adopted for the block; one that tells of a fault is only written down. An unknown replica is
      added by the one kind of report and ignored by the other. */
  lemma ReportsAreRecorded(m: Master, server: int, version: int, size: nat, fault: bool, i: nat)
    requires IsFirst(m.replicas + [Replica(server, 0, 0, false)], server, i)
    ensures var (m', grown) := ReportReplica(m, server, version, size, fault);
            var all := if i < |m.replicas| then m.replicas else m.replicas + [Replica(server, 0, 0, false)];
            && |m'.replicas| == |all| && m'.lease == m.lease
            && m'.replicas[i] == Replica(server, all[i].lease, version, fault)
            && (forall j :: 0 <= j < |all| && j != i ==> m'.replicas[j] == all[j])
            && (if fault then m'.version == m.version && m'.expectVersion == m.expectVersion && m'.size == m.size
                else && m.version <= m'.version && version <= m'.version && m'.version in {m.version, version}
                     && m.expectVersion <= m'.expectVersion && version <= m'.expectVersion
                     && m'.expectVersion in {m.expectVersion, version}
                     && m.size <= m'.size && size <= m'.size && m'.size in {m.size, size})
            && (grown == if m'.size == m.size then 0 else size)
    ensures UpdateReplica(m, server, version, size, fault) ==
              if i < |m.replicas| then ReportReplica(m, server, version, size, fault) else (m, 0)
  {
    var found := First(m.replicas, (r: Replica) => r.server == server);
    var all := m.replicas + [Replica(server, 0, 0, false)];
    assert forall j :: 0 <= j < |m.replicas| ==> all[j] == m.replicas[j];
    assert if i < |m.replicas| then found == Some(i) else found.None?;
  }
}
