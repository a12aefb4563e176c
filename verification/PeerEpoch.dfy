/** How a leader settles the epoch of its term: every server that connects, and the leader itself,
    calls GetPeerEpoch, and the calls interleave at their sleeps. */
module PeerEpoch {

  // ---- One call, between two sleeps ----

  function CountPositive(recv: seq<int>): (n: nat)
    ensures n <= |recv|
  {
    if recv == [] then 0 else CountPositive(recv[..|recv| - 1]) + if 0 < recv[|recv| - 1] then 1 else 0
  }

  predicate HasQuorum(recv: seq<int>) {
    |recv| / 2 + 1 <= CountPositive(recv)
  }

  function MaxEpoch(recv: seq<int>, epoch: int): int {
    if recv == [] then epoch
    else
      var last, m := recv[|recv| - 1], MaxEpoch(recv[..|recv| - 1], epoch);
      if 0 < last && m < last then last else m
  }

  class Epochs {
    var waitForPeerEpoch: bool
    var peerEpoch: int
    var recvPeerEpoch: seq<int>

    constructor (serverCount: nat)
      ensures waitForPeerEpoch && peerEpoch == 0 && recvPeerEpoch == seq(serverCount, _ => 0)
    {
      waitForPeerEpoch, peerEpoch, recvPeerEpoch := true, 0, seq(serverCount, _ => 0);
    }

    /** The call's first stretch; `answer` is final if the epoch is already settled. */
    method Register(id: int, epoch: int) returns (settled: bool, answer: int)
      requires 1 <= id <= |recvPeerEpoch|
      modifies this`recvPeerEpoch
      ensures settled == !waitForPeerEpoch && answer == peerEpoch
      ensures recvPeerEpoch == if settled then old(recvPeerEpoch) else old(recvPeerEpoch)[id - 1 := epoch]
    {
      settled, answer := !waitForPeerEpoch, peerEpoch;
      if !settled {
        recvPeerEpoch := recvPeerEpoch[id - 1 := epoch];
      }
    }

    method Poll() returns (enough: bool)
      ensures enough == HasQuorum(recvPeerEpoch)
    {
      var count := 0;
      for i := 0 to |recvPeerEpoch|
        invariant count == CountPositive(recvPeerEpoch[..i])
      {
        assert recvPeerEpoch[..i + 1][..i] == recvPeerEpoch[..i];
        if 0 < recvPeerEpoch[i] {
          count := count + 1;
        }
      }
      assert recvPeerEpoch[..|recvPeerEpoch|] == recvPeerEpoch;
      enough := |recvPeerEpoch| / 2 + 1 <= count;
    }

    method Settle(epoch: int) returns (answer: int)
      modifies this`waitForPeerEpoch, this`peerEpoch
      ensures answer == MaxEpoch(recvPeerEpoch, epoch) + 1
      ensures !waitForPeerEpoch && peerEpoch == answer
    {
      var m := epoch;
      for i := 0 to |recvPeerEpoch|
        invariant m == MaxEpoch(recvPeerEpoch[..i], epoch)
      {
        assert recvPeerEpoch[..i + 1][..i] == recvPeerEpoch[..i];
        if 0 < recvPeerEpoch[i] && m < recvPeerEpoch[i] {
          m := recvPeerEpoch[i];
        }
      }
      assert recvPeerEpoch[..|recvPeerEpoch|] == recvPeerEpoch;
      waitForPeerEpoch := false;
      peerEpoch := m + 1;
      answer := m + 1;
    }
  }

  // ---- All calls, interleaved ----

  datatype Stage = Polling | Sleeping | Answered(epoch: int)

  /** One call; `registered` tells whether it found the epoch unsettled and wrote its own down. */
  datatype Caller = Caller(id: int, epoch: int, registered: bool, stage: Stage)

  datatype State = State(waiting: bool, peerEpoch: int, recv: seq<int>, callers: seq<Caller>)

  /** A new call begins, or call number `i` wakes from its sleep. */
  datatype Step = Enter(id: int, epoch: int) | Wake(i: nat)

  function PollStage(recv: seq<int>): Stage {
    if HasQuorum(recv) then Sleeping else Polling
  }

  function Do(s: State, step: Step): State {
    match step
    case Enter(id, epoch) =>
      if !(1 <= id <= |s.recv|) then s
      else if !s.waiting then s.(callers := s.callers + [Caller(id, epoch, false, Answered(s.peerEpoch))])
      else
        var recv := s.recv[id - 1 := epoch];
        s.(recv := recv, callers := s.callers + [Caller(id, epoch, true, PollStage(recv))])
    case Wake(i) =>
      if |s.callers| <= i then s
      else
        var c := s.callers[i];
        match c.stage {
          case Polling => s.(callers := s.callers[i := c.(stage := PollStage(s.recv))])
          case Sleeping =>
            var answer := MaxEpoch(s.recv, c.epoch) + 1;
            State(false, answer, s.recv, s.callers[i := c.(stage := Answered(answer))])
          case Answered(_) => s
        }
  }

  function Start(serverCount: nat): State {
    State(true, 0, seq(serverCount, _ => 0), [])
  }

  function Run(s: State, steps: seq<Step>): State
    decreases |steps|
  {
    if steps == [] then s else Run(Do(s, steps[0]), steps[1..])
  }

  /** A server never reports a smaller epoch than before. */
  ghost predicate Allowed(s: State, step: Step) {
    step.Enter? ==> forall c :: c in s.callers && c.id == step.id ==> c.epoch <= step.epoch
  }

  ghost predicate AllowedRun(s: State, steps: seq<Step>)
    decreases |steps|
  {
    steps != [] ==> Allowed(s, steps[0]) && AllowedRun(Do(s, steps[0]), steps[1..])
  }

  // ---- Counting and maximum ----

  /** The servers, counted from 0, that have reported an epoch that counts. */
  function Reporters(recv: seq<int>): set<int> {
    set i | 0 <= i < |recv| && 0 < recv[i]
  }

  lemma {:induction false} CountIsReporters(recv: seq<int>)
    ensures CountPositive(recv) == |Reporters(recv)|
  {
    if recv == [] {
      assert Reporters(recv) == {};
    } else {
      var n := |recv|;
      var rest := recv[..n - 1];
      CountIsReporters(rest);
      assert Reporters(recv) == Reporters(rest) + if 0 < recv[n - 1] then {n - 1} else {};
    }
  }

  ghost predicate AMajorityReported(recv: seq<int>) {
    |recv| / 2 + 1 <= |Reporters(recv)|
  }

  lemma QuorumIsAMajority(recv: seq<int>)
    ensures HasQuorum(recv) <==> AMajorityReported(recv)
  {
    CountIsReporters(recv);
  }

  lemma QuorumStays(recv: seq<int>, recv': seq<int>)
    requires |recv| == |recv'| && HasQuorum(recv)
    requires forall i :: 0 <= i < |recv| && 0 < recv[i] ==> 0 < recv'[i]
    ensures HasQuorum(recv')
  {
    CountIsReporters(recv);
    CountIsReporters(recv');
    assert Reporters(recv') == Reporters(recv) + (Reporters(recv') - Reporters(recv));
  }

  lemma {:induction false} QuorumIsPositive(recv: seq<int>)
    requires 0 < CountPositive(recv)
    ensures exists i :: 0 <= i < |recv| && 0 < recv[i]
  {
    if recv[|recv| - 1] <= 0 {
      QuorumIsPositive(recv[..|recv| - 1]);
    }
  }

  lemma {:induction false} MaxIs(recv: seq<int>, epoch: int)
    ensures var m := MaxEpoch(recv, epoch);
            && epoch <= m && (forall i :: 0 <= i < |recv| && 0 < recv[i] ==> recv[i] <= m)
            && (m == epoch || (m in recv && 0 < m))
  {
    if recv != [] {
      MaxIs(recv[..|recv| - 1], epoch);
      assert forall i :: 0 <= i < |recv| - 1 ==> recv[i] == recv[..|recv| - 1][i];
    }
  }

  /** Whoever computes it, the maximum is the highest epoch written down. */
  lemma MaxIsTheHighest(recv: seq<int>, epoch: int, id: int)
    requires 0 < CountPositive(recv) && 1 <= id <= |recv| && epoch <= recv[id - 1]
    ensures MaxEpoch(recv, epoch) in recv && forall i :: 0 <= i < |recv| ==> recv[i] <= MaxEpoch(recv, epoch)
  {
    MaxIs(recv, epoch);
    QuorumIsPositive(recv);
  }

  // ---- Invariant ----

  ghost predicate CallerOk(waiting: bool, peerEpoch: int, recv: seq<int>, c: Caller) {
    && 1 <= c.id <= |recv|
    && (c.registered ==> c.epoch <= recv[c.id - 1])
    && (!c.registered ==> c.stage.Answered?)
    && (c.stage.Answered? ==> !waiting && c.stage.epoch == peerEpoch)
    && (c.stage.Sleeping? ==> HasQuorum(recv))
  }

  /** Server `id` has reported `epoch`. */
  ghost predicate Reported(callers: seq<Caller>, id: int, epoch: int) {
    exists c :: c in callers && c.registered && c.id == id && c.epoch == epoch
  }

  ghost predicate Settled(peerEpoch: int, recv: seq<int>) {
    HasQuorum(recv) && peerEpoch - 1 in recv && forall i :: 0 <= i < |recv| ==> recv[i] < peerEpoch
  }

  ghost predicate CallersOk(s: State) {
    forall c :: c in s.callers ==> CallerOk(s.waiting, s.peerEpoch, s.recv, c)
  }

  ghost predicate ReportsOk(s: State) {
    forall i :: 0 <= i < |s.recv| ==> s.recv[i] == 0 || Reported(s.callers, i + 1, s.recv[i])
  }

  ghost predicate Inv(s: State) {
    CallersOk(s) && ReportsOk(s) && (!s.waiting ==> Settled(s.peerEpoch, s.recv))
  }

  lemma ReportedStays(callers: seq<Caller>, callers': seq<Caller>, id: int, epoch: int)
    requires Reported(callers, id, epoch) && |callers| <= |callers'|
    requires forall k :: 0 <= k < |callers| ==> callers'[k] == callers[k].(stage := callers'[k].stage)
    ensures Reported(callers', id, epoch)
  {
    var k :| 0 <= k < |callers| && callers[k].registered && callers[k].id == id && callers[k].epoch == epoch;
    assert callers'[k] in callers';
  }

  lemma HigherReportKeepsQuorum(recv: seq<int>, id: int, epoch: int)
    requires 1 <= id <= |recv| && HasQuorum(recv) && (recv[id - 1] == 0 || recv[id - 1] <= epoch)
    ensures HasQuorum(recv[id - 1 := epoch])
  {
    QuorumStays(recv, recv[id - 1 := epoch]);
  }

  lemma EnterKeepsCallers(s: State, id: int, epoch: int)
    requires CallersOk(s) && s.waiting && 1 <= id <= |s.recv| && (s.recv[id - 1] == 0 || s.recv[id - 1] <= epoch)
    requires forall c :: c in s.callers && c.id == id ==> c.epoch <= epoch
    ensures CallersOk(Do(s, Enter(id, epoch)))
  {
    var s' := Do(s, Enter(id, epoch));
    forall c | c in s'.callers
      ensures CallerOk(s'.waiting, s'.peerEpoch, s'.recv, c)
    {
      if c in s.callers {
        assert CallerOk(s.waiting, s.peerEpoch, s.recv, c);
        if c.stage.Sleeping? {
          HigherReportKeepsQuorum(s.recv, id, epoch);
        }
      } else {
        assert c == s'.callers[|s.callers|];
      }
    }
  }

  lemma EnterKeepsReports(s: State, id: int, epoch: int)
    requires ReportsOk(s) && s.waiting && 1 <= id <= |s.recv|
    ensures ReportsOk(Do(s, Enter(id, epoch)))
  {
    var s' := Do(s, Enter(id, epoch));
    assert s'.callers[|s.callers|] in s'.callers && Reported(s'.callers, id, epoch);
    forall i | 0 <= i < |s'.recv|
      ensures s'.recv[i] == 0 || Reported(s'.callers, i + 1, s'.recv[i])
    {
      if i != id - 1 && s.recv[i] != 0 {
        ReportedStays(s.callers, s'.callers, i + 1, s.recv[i]);
      }
    }
  }

  /** What is written down for a server only rises. */
  lemma ReportsRise(s: State, id: int, epoch: int)
    requires ReportsOk(s) && Allowed(s, Enter(id, epoch)) && 1 <= id <= |s.recv|
    ensures s.recv[id - 1] == 0 || s.recv[id - 1] <= epoch
  {
    var k := id - 1;
    if s.recv[k] != 0 {
      assert Reported(s.callers, k + 1, s.recv[k]);
      var c :| c in s.callers && c.registered && c.id == k + 1 && c.epoch == s.recv[k];
    }
  }

  lemma EnterKeepsInv(s: State, id: int, epoch: int)
    requires Inv(s) && Allowed(s, Enter(id, epoch)) && s.waiting && 1 <= id <= |s.recv|
    ensures Inv(Do(s, Enter(id, epoch)))
  {
    ReportsRise(s, id, epoch);
    EnterKeepsCallers(s, id, epoch);
    EnterKeepsReports(s, id, epoch);
  }

  lemma LateEnterKeepsReports(s: State, id: int, epoch: int)
    requires ReportsOk(s) && !s.waiting && 1 <= id <= |s.recv|
    ensures ReportsOk(Do(s, Enter(id, epoch)))
  {
    var s' := Do(s, Enter(id, epoch));
    forall i | 0 <= i < |s'.recv|
      ensures s'.recv[i] == 0 || Reported(s'.callers, i + 1, s'.recv[i])
    {
      if s.recv[i] != 0 {
        ReportedStays(s.callers, s'.callers, i + 1, s.recv[i]);
      }
    }
  }

  lemma LateEnterKeepsInv(s: State, id: int, epoch: int)
    requires Inv(s) && !s.waiting && 1 <= id <= |s.recv|
    ensures Inv(Do(s, Enter(id, epoch)))
  {
    LateEnterKeepsReports(s, id, epoch);
  }

  /** The epoch one call settles on is what every other call has settled or will settle on. */
  lemma SettlesAlike(s: State, c: Caller)
    requires CallersOk(s) && (!s.waiting ==> Settled(s.peerEpoch, s.recv)) && c in s.callers && c.stage.Sleeping?
    ensures Settled(MaxEpoch(s.recv, c.epoch) + 1, s.recv)
    ensures !s.waiting ==> MaxEpoch(s.recv, c.epoch) + 1 == s.peerEpoch
  {
    assert CallerOk(s.waiting, s.peerEpoch, s.recv, c);
    MaxIsTheHighest(s.recv, c.epoch, c.id);
  }

  lemma SettlingKeepsCaller(waiting: bool, peerEpoch: int, answer: int, recv: seq<int>, c: Caller)
    requires CallerOk(waiting, peerEpoch, recv, c) && (!waiting ==> answer == peerEpoch)
    ensures CallerOk(false, answer, recv, c)
    ensures c.registered ==> CallerOk(false, answer, recv, c.(stage := Answered(answer)))
  {
  }

  lemma WakeKeepsCallers(s: State, i: nat)
    requires CallersOk(s) && (!s.waiting ==> Settled(s.peerEpoch, s.recv)) && i < |s.callers|
    ensures CallersOk(Do(s, Wake(i)))
  {
    var s', c := Do(s, Wake(i)), s.callers[i];
    assert c in s.callers && CallerOk(s.waiting, s.peerEpoch, s.recv, c);
    if c.stage.Sleeping? {
      SettlesAlike(s, c);
    }
    forall d | d in s'.callers
      ensures CallerOk(s'.waiting, s'.peerEpoch, s'.recv, d)
    {
      var k :| 0 <= k < |s'.callers| && s'.callers[k] == d;
      assert s.callers[k] in s.callers && CallerOk(s.waiting, s.peerEpoch, s.recv, s.callers[k]);
      if c.stage.Sleeping? {
        SettlingKeepsCaller(s.waiting, s.peerEpoch, s'.peerEpoch, s.recv, s.callers[k]);
      }
    }
  }

  lemma WakeKeepsReports(s: State, i: nat)
    requires ReportsOk(s) && i < |s.callers|
    ensures ReportsOk(Do(s, Wake(i)))
  {
    var s' := Do(s, Wake(i));
    forall k | 0 <= k < |s'.recv|
      ensures s'.recv[k] == 0 || Reported(s'.callers, k + 1, s'.recv[k])
    {
      if s.recv[k] != 0 {
        ReportedStays(s.callers, s'.callers, k + 1, s.recv[k]);
      }
    }
  }

  lemma WakeKeepsSettled(s: State, i: nat)
    requires CallersOk(s) && (!s.waiting ==> Settled(s.peerEpoch, s.recv)) && i < |s.callers|
    ensures !Do(s, Wake(i)).waiting ==> Settled(Do(s, Wake(i)).peerEpoch, Do(s, Wake(i)).recv)
  {
    if s.callers[i].stage.Sleeping? {
      SettlesAlike(s, s.callers[i]);
    }
  }

  lemma WakeKeepsInv(s: State, i: nat)
    requires Inv(s) && i < |s.callers|
    ensures Inv(Do(s, Wake(i)))
  {
    WakeKeepsCallers(s, i);
    WakeKeepsReports(s, i);
    WakeKeepsSettled(s, i);
  }

  lemma StepKeepsInv(s: State, step: Step)
    requires Inv(s) && Allowed(s, step)
    ensures Inv(Do(s, step))
  {
    match step
    case Enter(id, epoch) =>
      if 1 <= id <= |s.recv| {
        if s.waiting {
          EnterKeepsInv(s, id, epoch);
        } else {
          LateEnterKeepsInv(s, id, epoch);
        }
      }
    case Wake(i) =>
      if i < |s.callers| {
        WakeKeepsInv(s, i);
      }
  }

  lemma {:induction false} RunKeepsInv(s: State, steps: seq<Step>)
    requires Inv(s) && AllowedRun(s, steps)
    ensures Inv(Run(s, steps))
    decreases |steps|
  {
    if steps != [] {
      StepKeepsInv(s, steps[0]);
      RunKeepsInv(Do(s, steps[0]), steps[1..]);
    }
  }

  // ---- Main results ----

  /** However the calls interleave, all that return return one and the same epoch, one above the
      highest epoch that was registered. */
  lemma AllCallersGetOneEpoch(serverCount: nat, steps: seq<Step>)
    requires AllowedRun(Start(serverCount), steps)
    ensures var s := Run(Start(serverCount), steps);
            forall c :: c in s.callers && c.stage.Answered? ==>
              && (forall d :: d in s.callers && d.stage.Answered? ==> d.stage.epoch == c.stage.epoch)
              && (forall d :: d in s.callers && d.registered ==> d.epoch < c.stage.epoch)
              && (exists d :: d in s.callers && d.registered && d.epoch == c.stage.epoch - 1)
  {
    var s := Run(Start(serverCount), steps);
    RunKeepsInv(Start(serverCount), steps);
    forall c | c in s.callers && c.stage.Answered?
      ensures exists d :: d in s.callers && d.registered && d.epoch == c.stage.epoch - 1
    {
      assert CallerOk(s.waiting, s.peerEpoch, s.recv, c);
      QuorumIsPositive(s.recv);
      var i :| 0 <= i < |s.recv| && s.recv[i] == s.peerEpoch - 1;
      assert Reported(s.callers, i + 1, s.recv[i]);
    }
  }

  /** No call gets past the poll before a majority of the servers has reported a positive epoch. */
  lemma AnEpochNeedsAMajority(serverCount: nat, steps: seq<Step>)
    requires AllowedRun(Start(serverCount), steps)
    ensures var s := Run(Start(serverCount), steps);
            (exists c :: c in s.callers && !c.stage.Polling?) ==>
              && AMajorityReported(s.recv)
              && forall i :: i in Reporters(s.recv) ==> Reported(s.callers, i + 1, s.recv[i]) && 0 < s.recv[i]
  {
    var s := Run(Start(serverCount), steps);
    RunKeepsInv(Start(serverCount), steps);
    CountIsReporters(s.recv);
  }

  /** So servers that have never been through a term, whose epochs are all 0, wait for ever. */
  lemma FreshServersNeverStart(serverCount: nat, steps: seq<Step>)
    requires AllowedRun(Start(serverCount), steps)
    requires forall step :: step in steps && step.Enter? ==> step.epoch <= 0
    ensures forall c :: c in Run(Start(serverCount), steps).callers ==> c.stage.Polling?
  {
    var s := Run(Start(serverCount), steps);
    AnEpochNeedsAMajority(serverCount, steps);
    EpochsComeFromSteps(Start(serverCount), steps);
    RunKeepsInv(Start(serverCount), steps);
    assert forall i :: 0 <= i < |s.recv| ==> s.recv[i] <= 0;
    assert Reporters(s.recv) == {};
  }

  lemma {:induction false} EpochsComeFromSteps(s: State, steps: seq<Step>)
    requires forall c :: c in s.callers ==> c.epoch <= 0
    requires forall step :: step in steps && step.Enter? ==> step.epoch <= 0
    ensures forall c :: c in Run(s, steps).callers ==> c.epoch <= 0
    decreases |steps|
  {
    if steps != [] {
      var s' := Do(s, steps[0]);
      forall c | c in s'.callers
        ensures c.epoch <= 0
      {
        var k :| 0 <= k < |s'.callers| && s'.callers[k] == c;
        assert k < |s.callers| ==> s.callers[k] in s.callers && s.callers[k].epoch == c.epoch;
        assert steps[0] in steps;
      }
      EpochsComeFromSteps(s', steps[1..]);
    }
  }
}
