/** What must happen in a term: a majority is enough for a commit, and whatever leaves the line is answered. */
module BroadcastProgress {
  import opened Common
  import opened BroadcastSpec
  import opened Broadcast
  import opened BroadcastSafety
  import opened BroadcastLead
  import opened BroadcastTerm
  import opened BroadcastResults
  import D = DataSetSpec

  // ---- When the leader commits ----

  lemma VoteAddsOne<S>(l: Lead<S>, id: int)
    requires l.uncommit != [] && 1 <= id <= |l.uncommit[0].vote|
    ensures Voters(Vote(l, id).uncommit[0].vote) == Voters(l.uncommit[0].vote) + {id}
  {
  }

  /** The next message of `id` acknowledges the draft that has been sent. */
  ghost predicate Acknowledges<S>(s: Sys<S>, id: int) {
    && Connected(s, id) && s.peers[id].up != []
    && Launched(s.lead) && s.peers[id].up[0] == AckProposeMsg(s.lead.uncommit[0].zxId)
  }

  lemma CompletesIff<S>(m: D.Machine<S>, init: S, s: Sys<S>, step: Step)
    requires Inv(m, init, s)
    ensures Completes(s, step) <==>
              && step.LeadReads? && Acknowledges(s, step.id)
              && |s.lead.links| / 2 + 1 <= |Voters(s.lead.uncommit[0].vote) + {step.id}|
  {
    if step.LeadReads? && Connected(s, step.id) && s.lead.uncommit != [] {
      assert s.lead.uncommit[0] in s.lead.uncommit;
      VoteAddsOne(s.lead, step.id);
      VotersCounted(Vote(s.lead, step.id).uncommit[0].vote);
    }
    if Completes(s, step) {
      CompletedIs(m, init, s, step);
    }
  }

  /** The leader's log grows exactly when it reads an acknowledgement of the draft that has been sent, and
      the server that sends it makes the voters a majority of all servers; it grows by that draft's bill. */
  lemma CommitsIff<S(!new)>(m: D.Machine<S>, init: S, s0: Sys<S>, s: Sys<S>, step: Step)
    requires Reachable(m, init, s0, s)
    ensures var log' := Do(m, s, step).lead.log;
            if && step.LeadReads? && Acknowledges(s, step.id)
               && |s.lead.links| / 2 + 1 <= |Voters(s.lead.uncommit[0].vote) + {step.id}|
            then log' == s.lead.log + [FirstBill(s.lead)]
            else log' == s.lead.log
  {
    ReachableIsOk(m, init, s0, s);
    CompletesIff(m, init, s, step);
    if Completes(s, step) {
      CompletedIs(m, init, s, step);
      CompletingLogs(m, init, s, step);
    } else {
      OthersGoOn(m, init, s, step);
    }
  }

  // ---- Votes are kept ----

  /** Every draft in line has its requester's vote. */
  ghost predicate Counted(uncommit: seq<Draft>) {
    forall d :: d in uncommit ==> HasVote(d, d.id)
  }

  lemma {:induction false} LaunchKeepsCounted<S>(m: D.Machine<S>, l: Lead<S>, disk: set<int>, owned: bool)
    requires Counted(l.uncommit)
    ensures Counted(LaunchNextDraft(m, l, disk, owned).uncommit)
    decreases |l.uncommit|
  {
    if l.uncommit != [] && l.ds.uncommit == [] && Refused(m, l, disk) && owned {
      LaunchKeepsCounted(m, DropFirst(l), disk, false);
    }
  }

  lemma VoteKeepsCounted<S>(l: Lead<S>, id: int)
    requires Counted(l.uncommit) && l.uncommit != []
    ensures Counted(Vote(l, id).uncommit)
  {
    var l' := Vote(l, id);
    forall d | d in l'.uncommit
      ensures HasVote(d, d.id)
    {
      var k :| 0 <= k < |l'.uncommit| && l'.uncommit[k] == d;
      assert l.uncommit[k] in l.uncommit && HasVote(l.uncommit[k], l.uncommit[k].id);
    }
  }

  lemma AckKeepsCounted<S>(m: D.Machine<S>, l: Lead<S>, id: int, zxId: int, nextCount: nat, disk: set<int>)
    requires Counted(l.uncommit)
    ensures Counted(AckPropose(m, l, id, zxId, nextCount, disk).uncommit)
  {
    if l.uncommit != [] && l.uncommit[0].zxId == zxId {
      var l1 := Vote(l, id);
      VoteKeepsCounted(l, id);
      if HasQuorum(l1.uncommit[0].vote) && D.Commit(m, l1.ds, zxId, nextCount).Some? {
        CommitFrame(m, l1, nextCount);
        LaunchKeepsCounted(m, CommitFirst(m, l1, nextCount), disk, true);
      }
    }
  }

  lemma ProposeKeepsCounted<S>(m: D.Machine<S>, l: Lead<S>, id: int, requestId: int, data: string, disk: set<int>)
    requires Counted(l.uncommit) && 1 <= id <= |l.links|
    ensures Counted(Propose(m, l, id, requestId, data, disk).uncommit)
  {
    var l' := Enqueue(l, id, requestId, data);
    assert HasVote(NewDraft(l, id, requestId, data), id);
    LaunchKeepsCounted(m, l', disk, true);
  }

  lemma ReadKeepsCounted<S>(m: D.Machine<S>, s: Sys<S>, id: int, nextCount: nat, disk: set<int>)
    requires Shape(s) && Counted(s.lead.uncommit) && Connected(s, id) && s.peers[id].up != []
    ensures Counted(Do(m, s, LeadReads(id, nextCount, disk)).lead.uncommit)
  {
    LeadReadsIs(m, s, id, nextCount, disk, Handle(m, Taken(s, id), id, s.peers[id].up[0], nextCount, disk));
    match s.peers[id].up[0]
    case RequestMsg(r, data) => ProposeKeepsCounted(m, s.lead, id, r, data, disk);
    case AckProposeMsg(zxId) => AckKeepsCounted(m, s.lead, id, zxId, nextCount, disk);
  }

  lemma StepKeepsCounted<S>(m: D.Machine<S>, init: S, s: Sys<S>, step: Step)
    requires Inv(m, init, s) && Counted(s.lead.uncommit)
    ensures Counted(Do(m, s, step).lead.uncommit)
  {
    if step.LeadSubmit? {
      ProposeKeepsCounted(m, AddCallback(s.lead, step.data), s.lead.id, s.lead.nextRequestId, step.data, step.disk);
    } else if step.LeadReads? && Connected(s, step.id) && s.peers[step.id].up != [] {
      ReadKeepsCounted(m, s, step.id, step.nextCount, step.disk);
    }
  }

  lemma {:induction false} RunKeepsCounted<S>(m: D.Machine<S>, init: S, s: Sys<S>, steps: seq<Step>)
    requires Inv(m, init, s) && Counted(s.lead.uncommit) && AllowedRun(m, s, steps)
    ensures Counted(Run(m, s, steps).lead.uncommit)
    decreases |steps|
  {
    if steps != [] {
      StepKeepsInv(m, init, s, steps[0]);
      StepKeepsCounted(m, init, s, steps[0]);
      RunKeepsCounted(m, init, Do(m, s, steps[0]), steps[1..]);
    }
  }

  lemma RequestersVote<S(!new)>(m: D.Machine<S>, init: S, s0: Sys<S>, s: Sys<S>)
    requires Reachable(m, init, s0, s)
    ensures Counted(s.lead.uncommit)
  {
    StartIsOk(m, init, s0);
    var steps :| AllowedRun(m, s0, steps) && Run(m, s0, steps) == s;
    RunKeepsCounted(m, init, s0, steps);
  }

  // ---- A majority is enough ----

  /** The leader reads the next message of each of `ids`, in that order. */
  function Reads(ids: seq<int>, disk: set<int>): seq<Step> {
    if ids == [] then [] else [LeadReads(ids[0], 0, disk)] + Reads(ids[1..], disk)
  }

  ghost predicate AllAcknowledge<S>(s: Sys<S>, ids: seq<int>) {
    && (forall j, k :: 0 <= j < k < |ids| ==> ids[j] != ids[k])
    && forall k :: 0 <= k < |ids| ==> Acknowledges(s, ids[k])
  }

  function Members(ids: seq<int>): set<int> {
    set i | i in ids
  }

  lemma LogGrows<S>(m: D.Machine<S>, init: S, s: Sys<S>, step: Step)
    requires Inv(m, init, s)
    ensures s.lead.log <= Do(m, s, step).lead.log
  {
    if Completes(s, step) {
      CompletingLogs(m, init, s, step);
    } else {
      OthersGoOn(m, init, s, step);
    }
  }

  lemma {:induction false} ReadsKeepTheLog<S>(m: D.Machine<S>, init: S, s: Sys<S>, ids: seq<int>, disk: set<int>)
    requires Inv(m, init, s)
    ensures AllowedRun(m, s, Reads(ids, disk)) && s.lead.log <= Run(m, s, Reads(ids, disk)).lead.log
    decreases |ids|
  {
    if ids != [] {
      var step := LeadReads(ids[0], 0, disk);
      assert Reads(ids, disk)[1..] == Reads(ids[1..], disk);
      LogGrows(m, init, s, step);
      StepKeepsInv(m, init, s, step);
      ReadsKeepTheLog(m, init, Do(m, s, step), ids[1..], disk);
    }
  }

  lemma EarlyAckIs<S>(m: D.Machine<S>, s: Sys<S>, id: int, disk: set<int>)
    requires Acknowledges(s, id) && !Completes(s, LeadReads(id, 0, disk))
    requires s.lead.ds.uncommit == [FirstBill(s.lead)]
    ensures Do(m, s, LeadReads(id, 0, disk)) == WithLead(Taken(s, id), Vote(s.lead, id))
  {
    AckIs(m, s.lead, id, s.lead.uncommit[0].zxId, 0, disk);
    LeadReadsIs(m, s, id, 0, disk, Handle(m, Taken(s, id), id, s.peers[id].up[0], 0, disk));
  }

  lemma VotedIs<S>(s: Sys<S>, id: int)
    requires Acknowledges(s, id) && 1 <= id <= |s.lead.uncommit[0].vote|
    ensures var s' := WithLead(Taken(s, id), Vote(s.lead, id));
            && Launched(s'.lead) && FirstBill(s'.lead) == FirstBill(s.lead) && |s'.lead.links| == |s.lead.links|
            && Voters(s'.lead.uncommit[0].vote) == Voters(s.lead.uncommit[0].vote) + {id}
            && forall i :: i != id && Acknowledges(s, i) ==> Acknowledges(s', i)
  {
    VoteFrame(s.lead, id);
    VoteAddsOne(s.lead, id);
  }

  /** An acknowledgement that is not the last one needed is counted, and the others stay to be read. */
  lemma AckIsCounted<S>(m: D.Machine<S>, init: S, s: Sys<S>, id: int, disk: set<int>)
    requires Inv(m, init, s) && Acknowledges(s, id) && !Completes(s, LeadReads(id, 0, disk))
    ensures var s' := Do(m, s, LeadReads(id, 0, disk));
            && Launched(s'.lead) && FirstBill(s'.lead) == FirstBill(s.lead) && |s'.lead.links| == |s.lead.links|
            && Voters(s'.lead.uncommit[0].vote) == Voters(s.lead.uncommit[0].vote) + {id}
            && forall i :: i != id && Acknowledges(s, i) ==> Acknowledges(s', i)
  {
    assert s.lead.uncommit[0] in s.lead.uncommit;
    EarlyAckIs(m, s, id, disk);
    VotedIs(s, id);
  }

  lemma TheOthersStillAcknowledge<S>(s: Sys<S>, s': Sys<S>, ids: seq<int>)
    requires ids != [] && AllAcknowledge(s, ids)
    requires forall i :: i != ids[0] && Acknowledges(s, i) ==> Acknowledges(s', i)
    ensures AllAcknowledge(s', ids[1..])
  {
    forall k | 0 <= k < |ids[1..]|
      ensures Acknowledges(s', ids[1..][k])
    {
      assert ids[1..][k] == ids[k + 1] && Acknowledges(s, ids[k + 1]);
    }
  }

  lemma MembersOfRest(voters: set<int>, ids: seq<int>)
    requires ids != []
    ensures voters + Members(ids) == voters + {ids[0]} + Members(ids[1..])
    ensures ids[1..] == [] ==> voters + Members(ids) == voters + {ids[0]}
  {
    assert ids == [ids[0]] + ids[1..];
  }

  lemma LastReadCommits<S>(m: D.Machine<S>, init: S, s: Sys<S>, ids: seq<int>, disk: set<int>)
    requires Inv(m, init, s) && ids != [] && Completes(s, LeadReads(ids[0], 0, disk))
    ensures FirstBill(s.lead) in Run(m, s, Reads(ids, disk)).lead.log
  {
    var step := LeadReads(ids[0], 0, disk);
    assert Reads(ids, disk)[1..] == Reads(ids[1..], disk);
    StepKeepsInv(m, init, s, step);
    CompletedIs(m, init, s, step);
    CompletingLogs(m, init, s, step);
    ReadsKeepTheLog(m, init, Do(m, s, step), ids[1..], disk);
  }

  lemma {:induction false} ReadsCommit<S>(m: D.Machine<S>, init: S, s: Sys<S>, ids: seq<int>, disk: set<int>)
    requires Inv(m, init, s) && Launched(s.lead) && ids != [] && AllAcknowledge(s, ids)
    requires |s.lead.links| / 2 + 1 <= |Voters(s.lead.uncommit[0].vote) + Members(ids)|
    ensures FirstBill(s.lead) in Run(m, s, Reads(ids, disk)).lead.log
    decreases |ids|
  {
    var step := LeadReads(ids[0], 0, disk);
    MembersOfRest(Voters(s.lead.uncommit[0].vote), ids);
    CompletesIff(m, init, s, step);
    if Completes(s, step) {
      LastReadCommits(m, init, s, ids, disk);
    } else {
      assert Reads(ids, disk)[1..] == Reads(ids[1..], disk);
      AckIsCounted(m, init, s, ids[0], disk);
      TheOthersStillAcknowledge(s, Do(m, s, step), ids);
      StepKeepsInv(m, init, s, step);
      ReadsCommit(m, init, Do(m, s, step), ids[1..], disk);
    }
  }

  lemma RequesterIsAVoter<S>(s: Sys<S>, ids: seq<int>)
    requires s.lead.uncommit != [] && Counted(s.lead.uncommit)
    ensures var d := s.lead.uncommit[0]; |{d.id} + Members(ids)| <= |Voters(d.vote) + Members(ids)|
  {
    var d := s.lead.uncommit[0];
    assert HasVote(d, d.id);
    Larger({d.id} + Members(ids), Voters(d.vote) + Members(ids));
  }

  /** Once the requester and the servers whose acknowledgements are waiting make up a majority of all
      servers, reading them commits the draft, in whatever order they are read. */
  lemma AMajorityIsEnough<S(!new)>(m: D.Machine<S>, init: S, s0: Sys<S>, s: Sys<S>, ids: seq<int>, disk: set<int>)
    requires Reachable(m, init, s0, s) && Launched(s.lead) && ids != [] && AllAcknowledge(s, ids)
    requires |s.lead.links| / 2 + 1 <= |{s.lead.uncommit[0].id} + Members(ids)|
    ensures AllowedRun(m, s, Reads(ids, disk))
    ensures FirstBill(s.lead) in Run(m, s, Reads(ids, disk)).lead.log
  {
    ReachableIsOk(m, init, s0, s);
    RequestersVote(m, init, s0, s);
    RequesterIsAVoter(s, ids);
    ReadsKeepTheLog(m, init, s, ids, disk);
    ReadsCommit(m, init, s, ids, disk);
  }

  // ---- Only what passes the check is logged ----

  /** A draft at the front of a free line is logged and sent to every linked follower exactly if the
      state machine's check passes it and the disk accepts it. */
  lemma SentIffAccepted<S>(m: D.Machine<S>, l: Lead<S>, disk: set<int>)
    requires l.uncommit != [] && l.ds.uncommit == [] && l.unsent.None?
    ensures var d, l' := l.uncommit[0], LaunchNextDraft(m, l, disk, true);
            && (l'.uncommit == l.uncommit <==> m.preCheck(l.ds.state, d.data) && d.zxId in disk)
            && (l'.uncommit == l.uncommit ==>
                 && l'.ds == l.ds.(uncommit := [FirstBill(l)]) && l'.unsent.None? && l'.throws == l.throws
                 && forall i :: 0 <= i < |l.links| ==>
                      l'.links[i] == Extend(l.links[i], ProposeMsg(d.zxId, d.data)))
  {
    if Refused(m, l, disk) {
      LaunchShortens(m, DropFirst(l), disk, false);
    }
  }

  lemma {:induction false} LaunchShortens<S>(m: D.Machine<S>, l: Lead<S>, disk: set<int>, owned: bool)
    ensures |LaunchNextDraft(m, l, disk, owned).uncommit| <= |l.uncommit|
    decreases |l.uncommit|
  {
    if l.uncommit != [] && l.ds.uncommit == [] && Refused(m, l, disk) && owned {
      LaunchShortens(m, DropFirst(l), disk, false);
    }
  }

  /** Bill number `k` passes the check in the state after the bills before it. */
  ghost predicate PassesAt<S>(m: D.Machine<S>, init: S, log: seq<D.Bill>, k: nat)
    requires k < |log|
  {
    m.preCheck(D.Fold(m, init, log[..k]), log[k].data)
  }

  /** So do the bills logged since the first `n`, and the one that is logged but not committed. */
  ghost predicate Passed<S>(m: D.Machine<S>, init: S, l: Lead<S>, n: nat) {
    && n <= |l.log| && (forall k :: n <= k < |l.log| ==> PassesAt(m, init, l.log, k))
    && (l.ds.uncommit != [] ==> m.preCheck(D.Fold(m, init, l.log), l.ds.uncommit[0].data))
  }

  lemma {:induction false} LaunchKeepsPassed<S>(m: D.Machine<S>, init: S, l: Lead<S>, disk: set<int>, owned: bool,
                                                n: nat)
    requires Passed(m, init, l, n) && l.ds.state == D.Fold(m, init, l.log)
    ensures Passed(m, init, LaunchNextDraft(m, l, disk, owned), n)
    decreases |l.uncommit|
  {
    if l.uncommit != [] && l.ds.uncommit == [] && Refused(m, l, disk) && owned {
      LaunchKeepsPassed(m, init, DropFirst(l), disk, false, n);
    }
  }

  lemma OneMorePasses<S>(m: D.Machine<S>, init: S, log: seq<D.Bill>, b: D.Bill, n: nat)
    requires n <= |log| && forall k :: n <= k < |log| ==> PassesAt(m, init, log, k)
    requires m.preCheck(D.Fold(m, init, log), b.data)
    ensures forall k :: n <= k <= |log| ==> PassesAt(m, init, log + [b], k)
  {
    var log' := log + [b];
    forall k | n <= k <= |log|
      ensures PassesAt(m, init, log', k)
    {
      assert log'[..k] == log[..k] && log[..|log|] == log;
      if k < |log| {
        assert PassesAt(m, init, log, k);
      }
    }
  }

  lemma CommitKeepsPassed<S>(m: D.Machine<S>, init: S, l: Lead<S>, nextCount: nat, n: nat)
    requires Passed(m, init, l, n) && l.uncommit != [] && |l.ds.uncommit| == 1
    ensures Passed(m, init, CommitFirst(m, l, nextCount), n)
  {
    OneMorePasses(m, init, l.log, l.ds.uncommit[0], n);
    CommitFrame(m, l, nextCount);
    assert CommitFirst(m, l, nextCount).ds.uncommit == [];
  }

  lemma CommitKeepsFold<S>(m: D.Machine<S>, init: S, l: Lead<S>, nextCount: nat)
    requires l.uncommit != [] && l.ds.uncommit != [] && l.ds.state == D.Fold(m, init, l.log)
    ensures var l' := CommitFirst(m, l, nextCount); l'.ds.state == D.Fold(m, init, l'.log)
  {
    FoldThen(m, init, l.log, l.ds.uncommit[0]);
    CommitFrame(m, l, nextCount);
  }

  lemma AckKeepsPassed<S>(m: D.Machine<S>, init: S, l: Lead<S>, id: int, zxId: int, nextCount: nat, disk: set<int>,
                          n: nat)
    requires Passed(m, init, l, n) && l.ds.state == D.Fold(m, init, l.log) && |l.ds.uncommit| <= 1
    ensures Passed(m, init, AckPropose(m, l, id, zxId, nextCount, disk), n)
  {
    if l.uncommit != [] && l.uncommit[0].zxId == zxId {
      var l1 := Vote(l, id);
      if HasQuorum(l1.uncommit[0].vote) && D.Commit(m, l1.ds, zxId, nextCount).Some? {
        CommitKeepsPassed(m, init, l1, nextCount, n);
        CommitKeepsFold(m, init, l1, nextCount);
        LaunchKeepsPassed(m, init, CommitFirst(m, l1, nextCount), disk, true, n);
      }
    }
  }

  lemma ProposeKeepsPassed<S>(m: D.Machine<S>, init: S, l: Lead<S>, id: int, requestId: int, data: string,
                              disk: set<int>, n: nat)
    requires Passed(m, init, l, n) && l.ds.state == D.Fold(m, init, l.log)
    ensures Passed(m, init, Propose(m, l, id, requestId, data, disk), n)
  {
    LaunchKeepsPassed(m, init, Enqueue(l, id, requestId, data), disk, true, n);
  }

  lemma ReadKeepsPassed<S>(m: D.Machine<S>, init: S, s: Sys<S>, id: int, nextCount: nat, disk: set<int>, n: nat)
    requires LeadOk(m, init, s) && Passed(m, init, s.lead, n) && Connected(s, id) && s.peers[id].up != []
    ensures Passed(m, init, Do(m, s, LeadReads(id, nextCount, disk)).lead, n)
  {
    LeadReadsIs(m, s, id, nextCount, disk, Handle(m, Taken(s, id), id, s.peers[id].up[0], nextCount, disk));
    match s.peers[id].up[0]
    case RequestMsg(r, data) => ProposeKeepsPassed(m, init, s.lead, id, r, data, disk, n);
    case AckProposeMsg(zxId) => AckKeepsPassed(m, init, s.lead, id, zxId, nextCount, disk, n);
  }

  lemma StepKeepsPassed<S>(m: D.Machine<S>, init: S, s: Sys<S>, step: Step, n: nat)
    requires LeadOk(m, init, s) && Passed(m, init, s.lead, n)
    ensures Passed(m, init, Do(m, s, step).lead, n)
  {
    if step.LeadSubmit? {
      var l := AddCallback(s.lead, step.data);
      ProposeKeepsPassed(m, init, l, s.lead.id, s.lead.nextRequestId, step.data, step.disk, n);
    } else if step.LeadReads? && Connected(s, step.id) && s.peers[step.id].up != [] {
      ReadKeepsPassed(m, init, s, step.id, step.nextCount, step.disk, n);
    }
  }

  lemma {:induction false} RunKeepsPassed<S>(m: D.Machine<S>, init: S, s: Sys<S>, steps: seq<Step>, n: nat)
    requires Inv(m, init, s) && Passed(m, init, s.lead, n) && AllowedRun(m, s, steps)
    ensures Passed(m, init, Run(m, s, steps).lead, n)
    decreases |steps|
  {
    if steps != [] {
      StepKeepsInv(m, init, s, steps[0]);
      StepKeepsPassed(m, init, s, steps[0], n);
      RunKeepsPassed(m, init, Do(m, s, steps[0]), steps[1..], n);
    }
  }

  /** Every bill committed in the term passed the state machine's check in the very state it was
      applied to, on the leader and on everyone who follows its log. */
  lemma CommittedBillsPassedTheCheck<S(!new)>(m: D.Machine<S>, init: S, s0: Sys<S>, s: Sys<S>, k: nat)
    requires Reachable(m, init, s0, s) && |s0.lead.log| <= k < |s.lead.log|
    ensures m.preCheck(D.Fold(m, init, s.lead.log[..k]), s.lead.log[k].data)
  {
    StartIsOk(m, init, s0);
    var steps :| AllowedRun(m, s0, steps) && Run(m, s0, steps) == s;
    RunKeepsPassed(m, init, s0, steps, |s0.lead.log|);
    assert PassesAt(m, init, s.lead.log, k);
  }

  // ---- What a server that joins is sent ----

  /** The leader's uncommitted bills, each once and in order. */
  lemma {:induction false} JoinersAreSentTheBills(bills: seq<D.Bill>)
    ensures |Pending(bills)| == |bills|
    ensures forall k :: 0 <= k < |bills| ==> Pending(bills)[k] == ProposeMsg(bills[k].zxId, bills[k].data)
  {
    if bills != [] {
      JoinersAreSentTheBills(bills[1..]);
      assert forall k :: 0 < k < |bills| ==>
               Pending(bills)[k] == Pending(bills[1..])[k - 1] && bills[k] == bills[1..][k - 1];
    }
  }

  // ---- An acknowledgement for a bill that is not there ----

  /** A vote that completes a majority for the first draft, while its bill is not first in the data set's
      line, is counted, and then the handler throws before anything else is done. */
  lemma MissingBillThrows<S>(m: D.Machine<S>, l: Lead<S>, id: int, zxId: int, nextCount: nat, disk: set<int>)
    requires l.uncommit != [] && l.uncommit[0].zxId == zxId && 1 <= id <= |l.uncommit[0].vote|
    requires |l.uncommit[0].vote| / 2 + 1 <= |Voters(l.uncommit[0].vote) + {id}|
    requires l.ds.uncommit == [] || l.ds.uncommit[0].zxId != zxId
    ensures var l' := AckPropose(m, l, id, zxId, nextCount, disk);
            && l'.throws == l.throws + 1 && l'.log == l.log && l'.ds == l.ds && l'.links == l.links
            && |l'.uncommit| == |l.uncommit| && Voters(l'.uncommit[0].vote) == Voters(l.uncommit[0].vote) + {id}
  {
    VoteAddsOne(l, id);
    VotersCounted(Vote(l, id).uncommit[0].vote);
  }
}
