/** When the calls for an epoch return, and when they agree although servers report as they please. */
module PeerEpochLimits {
  import opened PeerEpoch

  // ---- When a call returns ----

  predicate IsAnswered(s: State, i: nat) {
    i < |s.callers| && s.callers[i].stage.Answered?
  }

  /** How often call `i` has yet to wake before it returns, once a majority has reported. */
  function Lacks(stage: Stage): nat {
    if stage.Polling? then 2 else if stage.Sleeping? then 1 else 0
  }

  function Wakings(steps: seq<Step>, i: nat): nat {
    if steps == [] then 0 else (if steps[0] == Wake(i) then 1 else 0) + Wakings(steps[1..], i)
  }

  lemma StepKeepsQuorum(s: State, step: Step)
    requires ReportsOk(s) && HasQuorum(s.recv) && Allowed(s, step)
    ensures HasQuorum(Do(s, step).recv)
  {
    if step.Enter? && 1 <= step.id <= |s.recv| && s.waiting {
      ReportsRise(s, step.id, step.epoch);
      HigherReportKeepsQuorum(s.recv, step.id, step.epoch);
    }
  }

  lemma WakingHelps(s: State, step: Step, i: nat)
    requires HasQuorum(s.recv) && i < |s.callers|
    ensures var s' := Do(s, step);
            i < |s'.callers| && Lacks(s'.callers[i].stage) <= Lacks(s.callers[i].stage)
            && (step == Wake(i) ==> Lacks(s'.callers[i].stage) <= Lacks(s.callers[i].stage) - 1 || IsAnswered(s', i))
  {
  }

  /** Once a majority has reported, a call that wakes twice returns, whatever happens in between. */
  lemma {:induction false} WokenTwiceIsAnswered(s: State, steps: seq<Step>, i: nat)
    requires Inv(s) && AMajorityReported(s.recv) && i < |s.callers| && AllowedRun(s, steps)
    requires Lacks(s.callers[i].stage) <= Wakings(steps, i)
    ensures IsAnswered(Run(s, steps), i)
    decreases |steps|
  {
    if steps != [] {
      var s' := Do(s, steps[0]);
      QuorumIsAMajority(s.recv);
      QuorumIsAMajority(s'.recv);
      WakingHelps(s, steps[0], i);
      StepKeepsInv(s, steps[0]);
      StepKeepsQuorum(s, steps[0]);
      WokenTwiceIsAnswered(s', steps[1..], i);
    }
  }

  ghost predicate OnlyWakes(steps: seq<Step>) {
    forall step :: step in steps ==> step.Wake?
  }

  lemma {:induction false} WithoutAQuorumNobodyMoves(s: State, steps: seq<Step>)
    requires !HasQuorum(s.recv) && OnlyWakes(steps)
    requires forall k :: 0 <= k < |s.callers| ==> s.callers[k].stage.Polling?
    ensures Run(s, steps) == s
    decreases |steps|
  {
    if steps != [] {
      assert steps[0] in steps && steps[0].Wake?;
      if steps[0].i < |s.callers| {
        assert s.callers[steps[0].i := s.callers[steps[0].i]] == s.callers;
      }
      WithoutAQuorumNobodyMoves(s, steps[1..]);
    }
  }

  lemma RunOfTwo(s: State, a: Step, b: Step)
    ensures Run(s, [a, b]) == Do(Do(s, a), b)
  {
    assert [a, b][1..] == [b] && [b][1..] == [];
    assert Run(Do(s, a), [b]) == Run(Do(Do(s, a), b), []);
  }

  lemma TwoWakingsSuffice(s: State, i: nat)
    requires HasQuorum(s.recv) && i < |s.callers|
    ensures IsAnswered(Run(s, [Wake(i), Wake(i)]), i)
  {
    RunOfTwo(s, Wake(i), Wake(i));
    WakingHelps(s, Wake(i), i);
    WakingHelps(Do(s, Wake(i)), Wake(i), i);
  }

  lemma NobodyReturnsWithoutAQuorum(s: State, i: nat)
    requires CallersOk(s) && (!s.waiting ==> Settled(s.peerEpoch, s.recv)) && !HasQuorum(s.recv)
    ensures forall more :: OnlyWakes(more) ==> !IsAnswered(Run(s, more), i)
  {
    forall k | 0 <= k < |s.callers|
      ensures s.callers[k].stage.Polling?
    {
      assert s.callers[k] in s.callers && CallerOk(s.waiting, s.peerEpoch, s.recv, s.callers[k]);
    }
    forall more | OnlyWakes(more)
      ensures !IsAnswered(Run(s, more), i)
    {
      WithoutAQuorumNobodyMoves(s, more);
    }
  }

  /** Unless somebody reports anew, a call can return exactly if a majority has reported. */
  lemma ACallReturnsIff(serverCount: nat, steps: seq<Step>, i: nat)
    requires AllowedRun(Start(serverCount), steps) && i < |Run(Start(serverCount), steps).callers|
    ensures var s := Run(Start(serverCount), steps);
            (exists more :: OnlyWakes(more) && IsAnswered(Run(s, more), i)) <==> AMajorityReported(s.recv)
  {
    var s := Run(Start(serverCount), steps);
    RunKeepsInv(Start(serverCount), steps);
    QuorumIsAMajority(s.recv);
    if HasQuorum(s.recv) {
      TwoWakingsSuffice(s, i);
      assert OnlyWakes([Wake(i), Wake(i)]);
    } else {
      NobodyReturnsWithoutAQuorum(s, i);
    }
  }

  // ---- When all calls agree, whatever servers report ----

  /** What call `c` would settle on. */
  function Choice(recv: seq<int>, c: Caller): int {
    MaxEpoch(recv, c.epoch)
  }

  /** It has passed the poll or would pass it. */
  ghost predicate CanReturn(recv: seq<int>, c: Caller) {
    c.stage.Sleeping? || (c.stage.Polling? && AMajorityReported(recv))
  }

  /** The calls still under way that can return settle on `m`, and those that have returned have. */
  ghost predicate AllChoose(s: State, m: int) {
    && !s.waiting && s.peerEpoch == m + 1
    && forall c :: c in s.callers ==>
         (CanReturn(s.recv, c) ==> Choice(s.recv, c) == m) && (c.stage.Answered? ==> c.stage.epoch == m + 1)
  }

  lemma StepKeepsChoice(s: State, step: Step, m: int)
    requires AllChoose(s, m)
    ensures AllChoose(Do(s, step), m)
  {
    var s' := Do(s, step);
    QuorumIsAMajority(s.recv);
    if step.Wake? && step.i < |s.callers| {
      assert s.callers[step.i] in s.callers;
    }
    forall c | c in s'.callers
      ensures (CanReturn(s'.recv, c) ==> Choice(s'.recv, c) == m) && (c.stage.Answered? ==> c.stage.epoch == m + 1)
    {
      var k :| 0 <= k < |s'.callers| && s'.callers[k] == c;
      if k < |s.callers| {
        assert s.callers[k] in s.callers;
      }
    }
  }

  lemma {:induction false} RunKeepsChoice(s: State, steps: seq<Step>, m: int)
    requires AllChoose(s, m)
    ensures AllChoose(Run(s, steps), m)
    decreases |steps|
  {
    if steps != [] {
      StepKeepsChoice(s, steps[0], m);
      RunKeepsChoice(Do(s, steps[0]), steps[1..], m);
    }
  }

  /** However the calls go on, no two of them return different epochs. */
  ghost predicate AgreeForEver(s: State) {
    forall steps, c, d :: ReturnsIn(s, steps, c) && ReturnsIn(s, steps, d) ==> c.stage.epoch == d.stage.epoch
  }

  ghost predicate ReturnsIn(s: State, steps: seq<Step>, c: Caller) {
    c in Run(s, steps).callers && c.stage.Answered?
  }

  /** The highest epoch written down, or 0. */
  function Peak(recv: seq<int>): int {
    MaxEpoch(recv, 0)
  }

  /** Equal epochs, or both covered by what is written down. */
  predicate Alike(recv: seq<int>, c: Caller, d: Caller) {
    c.epoch == d.epoch || (0 < Peak(recv) && c.epoch <= Peak(recv) && d.epoch <= Peak(recv))
  }

  ghost predicate AllAlike(s: State) {
    forall c, d :: c in s.callers && d in s.callers && CanReturn(s.recv, c) && CanReturn(s.recv, d) ==>
      Alike(s.recv, c, d)
  }

  lemma {:induction false} MaxOverPeak(recv: seq<int>, epoch: int)
    ensures MaxEpoch(recv, epoch) == if 0 < Peak(recv) && epoch < Peak(recv) then Peak(recv) else epoch
    ensures 0 <= Peak(recv)
  {
    if recv != [] {
      MaxOverPeak(recv[..|recv| - 1], epoch);
    }
  }

  lemma ChoicesAreEqualIff(recv: seq<int>, c: Caller, d: Caller)
    ensures Choice(recv, c) == Choice(recv, d) <==> Alike(recv, c, d)
  {
    MaxOverPeak(recv, c.epoch);
    MaxOverPeak(recv, d.epoch);
  }

  /** Call `i` wakes twice: it alone has moved on, and has returned its choice. */
  lemma WakesTwice(s: State, i: nat)
    requires i < |s.callers| && CanReturn(s.recv, s.callers[i])
    ensures var c, s' := s.callers[i], Do(Do(s, Wake(i)), Wake(i));
            s'.callers == s.callers[i := c.(stage := Answered(Choice(s.recv, c) + 1))] && s'.recv == s.recv
  {
    QuorumIsAMajority(s.recv);
  }

  /** The first call to settle has done so: nobody had returned before. */
  ghost predicate SettlesFirst(s: State, i: nat) {
    && s.waiting && i < |s.callers| && s.callers[i].stage.Sleeping?
    && forall c :: c in s.callers ==> !c.stage.Answered?
  }

  lemma AlikeAgree(s: State, i: nat)
    requires SettlesFirst(s, i) && AllAlike(s)
    ensures AgreeForEver(Do(s, Wake(i)))
  {
    var s', m := Do(s, Wake(i)), Choice(s.recv, s.callers[i]);
    assert s.callers[i] in s.callers;
    forall c | c in s'.callers
      ensures (CanReturn(s'.recv, c) ==> Choice(s'.recv, c) == m) && (c.stage.Answered? ==> c.stage.epoch == m + 1)
    {
      var k :| 0 <= k < |s'.callers| && s'.callers[k] == c;
      assert s.callers[k] in s.callers;
      ChoicesAreEqualIff(s.recv, s.callers[k], s.callers[i]);
    }
    forall steps, c, d | ReturnsIn(s', steps, c) && ReturnsIn(s', steps, d)
      ensures c.stage.epoch == d.stage.epoch
    {
      RunKeepsChoice(s', steps, m);
    }
  }

  /** Whoever has settled, another call that can return and chooses otherwise still does so. */
  lemma UnlikeDisagree(s: State, i: nat, k: nat)
    requires SettlesFirst(s, i) && k < |s.callers| && CanReturn(s.recv, s.callers[k])
    requires Choice(s.recv, s.callers[k]) != Choice(s.recv, s.callers[i])
    ensures !AgreeForEver(Do(s, Wake(i)))
  {
    var s' := Do(s, Wake(i));
    var steps := [Wake(k), Wake(k)];
    RunOfTwo(s', Wake(k), Wake(k));
    WakesTwice(s', k);
    var t := Run(s', steps);
    assert t == Do(Do(s', Wake(k)), Wake(k));
    assert t.callers[i] in t.callers && t.callers[k] in t.callers;
    assert ReturnsIn(s', steps, t.callers[i]) && ReturnsIn(s', steps, t.callers[k]);
  }

  lemma AgreeIffAlike(s: State, i: nat)
    requires SettlesFirst(s, i)
    ensures AgreeForEver(Do(s, Wake(i))) <==> AllAlike(s)
  {
    if AllAlike(s) {
      AlikeAgree(s, i);
    } else {
      var c, d :| c in s.callers && d in s.callers && CanReturn(s.recv, c) && CanReturn(s.recv, d)
                  && !Alike(s.recv, c, d);
      ChoicesAreEqualIff(s.recv, c, d);
      var j :| 0 <= j < |s.callers| && s.callers[j] == c;
      var k :| 0 <= k < |s.callers| && s.callers[k] == d;
      UnlikeDisagree(s, i, if Choice(s.recv, c) != Choice(s.recv, s.callers[i]) then j else k);
    }
  }

  lemma StepKeepsReports(s: State, step: Step)
    requires ReportsOk(s) && (s.waiting ==> forall c :: c in s.callers ==> !c.stage.Answered?)
    ensures var s' := Do(s, step);
            ReportsOk(s') && (s'.waiting ==> forall c :: c in s'.callers ==> !c.stage.Answered?)
  {
    match step
    case Enter(id, epoch) =>
      if 1 <= id <= |s.recv| {
        if s.waiting {
          EnterKeepsReports(s, id, epoch);
        } else {
          LateEnterKeepsReports(s, id, epoch);
        }
      }
    case Wake(i) =>
      if i < |s.callers| {
        WakeKeepsReports(s, i);
      }
  }

  lemma {:induction false} RunKeepsReports(s: State, steps: seq<Step>)
    requires ReportsOk(s) && (s.waiting ==> forall c :: c in s.callers ==> !c.stage.Answered?)
    ensures var s' := Run(s, steps);
            ReportsOk(s') && (s'.waiting ==> forall c :: c in s'.callers ==> !c.stage.Answered?)
    decreases |steps|
  {
    if steps != [] {
      StepKeepsReports(s, steps[0]);
      RunKeepsReports(Do(s, steps[0]), steps[1..]);
    }
  }

  /** With a majority, everybody can return, and somebody's epoch is the highest written down. */
  lemma AlikeIffCovered(s: State)
    requires ReportsOk(s) && HasQuorum(s.recv) && forall c :: c in s.callers ==> !c.stage.Answered?
    ensures AllAlike(s) <==> forall c :: c in s.callers ==> c.epoch <= Peak(s.recv)
  {
    MaxIs(s.recv, 0);
    QuorumIsPositive(s.recv);
    QuorumIsAMajority(s.recv);
    var j :| 0 <= j < |s.recv| && 0 < s.recv[j];
    assert s.recv[j] <= Peak(s.recv);
    var i :| 0 <= i < |s.recv| && s.recv[i] == Peak(s.recv);
    assert Reported(s.callers, i + 1, s.recv[i]);
    var top :| top in s.callers && top.epoch == Peak(s.recv);
    if AllAlike(s) {
      forall c | c in s.callers
        ensures c.epoch <= Peak(s.recv)
      {
        assert Alike(s.recv, c, top);
      }
    }
  }

  /** In every run, whatever the servers report: when a call is the first to settle, all calls that
      will ever return agree exactly if those that can return are alike; if a majority still counts,
      exactly if nobody has reported a higher epoch than the highest now written down. */
  lemma CallsAgreeIff(serverCount: nat, steps: seq<Step>, i: nat)
    requires var s := Run(Start(serverCount), steps);
             s.waiting && i < |s.callers| && s.callers[i].stage.Sleeping?
    ensures var s := Run(Start(serverCount), steps);
            && (AgreeForEver(Do(s, Wake(i))) <==> AllAlike(s))
            && (AMajorityReported(s.recv) ==>
                 (AgreeForEver(Do(s, Wake(i))) <==> forall c :: c in s.callers ==> c.epoch <= Peak(s.recv)))
  {
    var s := Run(Start(serverCount), steps);
    RunKeepsReports(Start(serverCount), steps);
    AgreeIffAlike(s, i);
    QuorumIsAMajority(s.recv);
    if HasQuorum(s.recv) {
      AlikeIffCovered(s);
    }
  }

  // ---- Runs in which a server reports a lower epoch the second time ----

  /** If the majority is lost after a call has passed the poll, a higher epoch that was overwritten
      does no harm: its call waits. */
  lemma LostMajorityLeavesCallsWaiting()
    ensures exists steps, c :: var s := Run(Start(3), steps);
              && s.waiting && 1 < |s.callers| && s.callers[1].stage.Sleeping? && AgreeForEver(Do(s, Wake(1)))
              && c in s.callers && Peak(s.recv) < c.epoch
  {
    var rest := [Enter(1, 0)];
    var steps := [Enter(1, 5), Enter(2, 1)] + rest;
    var s2 := FallingStarts(rest);
    var s3 := Do(s2, Enter(1, 0));
    assert rest[1..] == [] && s3.recv == [0, 1, 0];
    OnlyTheSecond();
    assert s3.callers == [Caller(1, 5, true, Polling), Caller(2, 1, true, Sleeping), Caller(1, 0, true, Polling)];
    assert Run(Start(3), steps) == s3;
    MaxOfThree(0, 1, 0, 0);
    CallsAgreeIff(3, steps, 1);
    assert s3.callers[0] in s3.callers;
  }

  lemma OnlyTheSecond()
    ensures !HasQuorum([0, 1, 0]) && !AMajorityReported([0, 1, 0])
  {
    QuorumIsAMajority([0, 1, 0]);
    assert [0][..0] == [] && [0, 1][..1] == [0] && [0, 1, 0][..2] == [0, 1];
    assert CountPositive([0]) == 0 && CountPositive([0, 1]) == 1;
  }

  /** A server that reports 5 and, connecting again, 1, leaves two calls with different epochs. */
  lemma FallingReportsSplitTheEpoch()
    ensures exists steps, c, d :: var s := Run(Start(3), steps);
              c in s.callers && d in s.callers && c.stage == Answered(6) && d.stage == Answered(2)
  {
    var rest := [Wake(0), Enter(1, 1), Wake(0), Wake(1)];
    var steps := [Enter(1, 5), Enter(2, 1)] + rest;
    var s2 := FallingStarts(rest);
    QuorumOfTwo(5, 1);
    QuorumOfTwo(1, 1);
    var s3 := Do(s2, Wake(0));
    assert rest[1..] == [Enter(1, 1), Wake(0), Wake(1)];
    var s4 := Do(s3, Enter(1, 1));
    assert rest[1..][1..] == [Wake(0), Wake(1)] && s4.recv == [1, 1, 0];
    assert s4.callers == [Caller(1, 5, true, Sleeping), Caller(2, 1, true, Sleeping), Caller(1, 1, true, Sleeping)];
    var s5 := Do(s4, Wake(0));
    assert rest[1..][1..][1..] == [Wake(1)];
    MaxOfThree(1, 1, 0, 5);
    MaxOfThree(1, 1, 0, 1);
    var s6 := Do(s5, Wake(1));
    assert rest[1..][1..][1..][1..] == [];
    assert Run(Start(3), steps) == s6;
    assert s6.callers[0].stage == Answered(6) && s6.callers[1].stage == Answered(2);
    assert s6.callers[0] in s6.callers && s6.callers[1] in s6.callers;
  }

  lemma MaxOfThree(a: int, b: int, c: int, epoch: int)
    ensures MaxEpoch([a, b, c], epoch) == var m := if 0 < a && epoch < a then a else epoch;
                                          var n := if 0 < b && m < b then b else m;
                                          if 0 < c && n < c then c else n
  {
    assert [a][..0] == [] && MaxEpoch([], epoch) == epoch;
    assert [a, b][..1] == [a] && MaxEpoch([a], epoch) == if 0 < a && epoch < a then a else epoch;
    assert [a, b, c][..2] == [a, b];
  }

  lemma QuorumOfTwo(a: int, b: int)
    requires 0 < a && 0 < b
    ensures !HasQuorum([a, 0, 0]) && HasQuorum([a, b, 0])
  {
    assert [a][..0] == [] && CountPositive([a]) == 1;
    assert [a, 0][..1] == [a] && [a, b][..1] == [a] && CountPositive([a, 0]) == 1 && CountPositive([a, b]) == 2;
    assert [a, 0, 0][..2] == [a, 0] && [a, b, 0][..2] == [a, b];
  }

  lemma FallingStarts(rest: seq<Step>) returns (s: State)
    ensures s == State(true, 0, [5, 1, 0], [Caller(1, 5, true, Polling), Caller(2, 1, true, Sleeping)])
    ensures Run(Start(3), [Enter(1, 5), Enter(2, 1)] + rest) == Run(s, rest)
  {
    var steps := [Enter(1, 5), Enter(2, 1)] + rest;
    var s1 := Do(Start(3), Enter(1, 5));
    assert s1.recv == [5, 0, 0];
    QuorumOfTwo(5, 1);
    assert steps[1..] == [Enter(2, 1)] + rest;
    s := Do(s1, Enter(2, 1));
    assert s.recv == [5, 1, 0];
    assert steps[1..][1..] == rest;
  }
}
