/** Every draft that leaves the line is answered, and every answer reaches the client that waits for it. */
module BroadcastReplies {
  import opened Common
  import opened BroadcastSpec
  import opened Broadcast
  import opened BroadcastSafety
  import opened BroadcastLead
  import opened BroadcastTerm
  import opened BroadcastResults
  import opened BroadcastAnswers
  import D = DataSetSpec

  // ---- At the leader ----

  /** The leader's own requests in line have their callbacks, and different numbers. */
  ghost predicate Awaited<S>(l: Lead<S>) {
    && (forall d :: d in l.uncommit && d.id == l.id ==> d.requestId in l.callbacks)
    && (forall j, k :: 0 <= j < k < |l.uncommit| && l.uncommit[j].id == l.id == l.uncommit[k].id ==>
          l.uncommit[j].requestId != l.uncommit[k].requestId)
  }

  /** The leader's own client has been called back, or the answer is on its way to the server that asked. */
  ghost predicate Told<S>(l: Lead<S>, id: int, requestId: int, zxId: int, success: bool) {
    if id == l.id then exists c :: c in l.calls && c.requestId == requestId && c.zxId == zxId && c.success == success
    else HasLink(l.links, id) ==> RequestAckMsg(requestId, success, zxId) in LinkOf(l, id)
  }

  /** Nothing told is taken back. */
  ghost predicate Later<S>(l: Lead<S>, l': Lead<S>) {
    && l'.id == l.id && (forall i :: HasLink(l'.links, i) <==> HasLink(l.links, i))
    && (forall c :: c in l.calls ==> c in l'.calls)
    && forall i, msg :: msg in LinkOf(l, i) ==> msg in LinkOf(l', i)
  }

  lemma LaterTwice<S>(l: Lead<S>, l1: Lead<S>, l2: Lead<S>)
    requires Later(l, l1) && Later(l1, l2)
    ensures Later(l, l2)
  {
  }

  lemma StaysTold<S>(l: Lead<S>, l': Lead<S>, id: int, requestId: int, zxId: int, success: bool)
    requires Told(l, id, requestId, zxId, success) && Later(l, l')
    ensures Told(l', id, requestId, zxId, success)
  {
  }

  lemma SendAllIsLater<S>(l: Lead<S>, l': Lead<S>, msg: Down)
    requires l'.links == SendAll(l.links, msg) && l'.id == l.id && l'.calls == l.calls
    ensures Later(l, l')
  {
    forall i, x | x in LinkOf(l, i)
      ensures x in LinkOf(l', i)
    {
      assert LinkOf(l', i) == LinkOf(l, i) + [msg];
    }
  }

  /** `l` is the leader with draft `d` just taken out of line. */
  lemma ReplyTells<S>(l: Lead<S>, d: Draft, success: bool)
    requires d.id == l.id ==> d.requestId in l.callbacks
    ensures Told(Reply(l, d, success), d.id, d.requestId, d.zxId, success) && Later(l, Reply(l, d, success))
  {
    var l' := Reply(l, d, success);
    if d.id == l.id {
      assert l'.calls[|l.calls|] in l'.calls;
    } else {
      forall i, x | x in LinkOf(l, i)
        ensures x in LinkOf(l', i)
      {
        assert i == d.id ==> LinkOf(l', i) == LinkOf(l, i) + [RequestAckMsg(d.requestId, success, d.zxId)];
      }
    }
  }

  lemma FirstIsAwaited<S>(l: Lead<S>)
    requires Awaited(l) && l.uncommit != []
    ensures var d := l.uncommit[0];
            && (d.id == l.id ==> d.requestId in l.callbacks)
            && (forall e :: e in l.uncommit[1..] && e.id == l.id ==>
                  e.requestId in l.callbacks && (d.id == l.id ==> e.requestId != d.requestId))
  {
    assert l.uncommit[0] in l.uncommit;
  }

  /** Answering the first draft leaves those behind it awaited. */
  lemma ReplyKeepsAwaited<S>(l: Lead<S>, l1: Lead<S>, success: bool)
    requires Awaited(l) && l.uncommit != []
    requires l1.uncommit == l.uncommit[1..] && l1.id == l.id && l1.callbacks == l.callbacks
    ensures Awaited(Reply(l1, l.uncommit[0], success))
  {
    FirstIsAwaited(l);
  }

  /** The first `n` drafts have left the line. */
  ghost predicate Takes<S>(l: Lead<S>, l': Lead<S>, n: nat) {
    n <= |l.uncommit| && l'.uncommit == l.uncommit[n..] && |l'.resolved| == |l.resolved| + n
  }

  /** They have been told of a failure, except for the last of them if something was thrown. */
  ghost predicate TellsFailures<S>(l: Lead<S>, drafts: seq<Draft>, threw: bool) {
    forall j :: 0 <= j < |drafts| && !(threw && j == |drafts| - 1) ==>
      Told(l, drafts[j].id, drafts[j].requestId, drafts[j].zxId, false)
  }

  lemma DropTells<S>(l: Lead<S>)
    requires Awaited(l) && l.uncommit != []
    ensures var d, l' := l.uncommit[0], DropFirst(l);
            && Takes(l, l', 1) && Later(l, l') && Awaited(l') && Told(l', d.id, d.requestId, d.zxId, false)
            && l'.throws == l.throws && l'.log == l.log
  {
    FirstIsAwaited(l);
    ReplyTells(EraseFirst(l), l.uncommit[0], false);
    ReplyKeepsAwaited(l, EraseFirst(l), false);
  }

  /** The launch without the lock: it answers nobody. */
  lemma UnownedTells<S>(m: D.Machine<S>, l: Lead<S>, disk: set<int>) returns (n: nat)
    requires Awaited(l)
    ensures var l' := LaunchNextDraft(m, l, disk, false);
            && Takes(l, l', n) && Later(l, l') && Awaited(l') && l.throws <= l'.throws && l'.log == l.log
            && n <= 1 && (n == 1 ==> l'.throws == l.throws + 1)
  {
    n := if l.uncommit != [] && l.ds.uncommit == [] && Refused(m, l, disk) then 1 else 0;
    assert l.uncommit[0..] == l.uncommit;
    if l.uncommit != [] {
      FirstIsAwaited(l);
    }
  }

  lemma FirstThenRest<S>(l: Lead<S>, drafts: seq<Draft>, threw: bool)
    requires drafts != [] && |drafts| <= 2 && (|drafts| == 2 ==> threw)
    requires var d := drafts[0]; Told(l, d.id, d.requestId, d.zxId, false)
    ensures TellsFailures(l, drafts, threw)
  {
  }

  lemma LaunchTells<S>(m: D.Machine<S>, l: Lead<S>, disk: set<int>) returns (n: nat)
    requires Awaited(l)
    ensures var l' := LaunchNextDraft(m, l, disk, true);
            && Takes(l, l', n) && Later(l, l') && Awaited(l') && l'.log == l.log
            && TellsFailures(l', l.uncommit[..n], l'.throws > l.throws)
  {
    assert l.uncommit[0..] == l.uncommit;
    if l.uncommit != [] && l.ds.uncommit == [] && Refused(m, l, disk) {
      var d, l1, l' := l.uncommit[0], DropFirst(l), LaunchNextDraft(m, l, disk, true);
      DropTells(l);
      n := UnownedTells(m, l1, disk);
      StaysTold(l1, LaunchNextDraft(m, l1, disk, false), d.id, d.requestId, d.zxId, false);
      n := n + 1;
      FirstThenRest(l', l.uncommit[..n], l'.throws > l.throws);
    } else {
      n := 0;
      if l.uncommit != [] && l.ds.uncommit == [] {
        SendAllIsLater(l, LaunchFirst(l), ProposeMsg(l.uncommit[0].zxId, l.uncommit[0].data));
      }
    }
  }

  lemma VoteKeepsAwaited<S>(l: Lead<S>, id: int)
    requires Awaited(l) && l.uncommit != []
    ensures Awaited(Vote(l, id)) && Later(l, Vote(l, id))
  {
    var l' := Vote(l, id);
    forall k | 0 <= k < |l'.uncommit|
      ensures l'.uncommit[k].id == l.uncommit[k].id && l'.uncommit[k].requestId == l.uncommit[k].requestId
      ensures l.uncommit[k] in l.uncommit
    {
    }
    forall d | d in l'.uncommit && d.id == l.id
      ensures d.requestId in l.callbacks
    {
      var k :| 0 <= k < |l'.uncommit| && l'.uncommit[k] == d;
    }
  }

  lemma CommitTells<S>(m: D.Machine<S>, l: Lead<S>, nextCount: nat)
    requires Awaited(l) && l.uncommit != [] && l.ds.uncommit != []
    ensures var d, l' := l.uncommit[0], CommitFirst(m, l, nextCount);
            && Takes(l, l', 1) && Later(l, l') && Awaited(l') && Told(l', d.id, d.requestId, d.zxId, true)
            && l'.throws == l.throws
  {
    var d, l1 := l.uncommit[0], Committed(m, l, nextCount);
    FirstIsAwaited(l);
    SendAllIsLater(l, l1, CommitMsg(d.zxId));
    ReplyTells(l1, d, true);
    ReplyKeepsAwaited(l, l1, true);
  }

  /** The drafts `gone` have left the line, the first of them by a commit if there was one; all have been
      told what became of them, except for a draft at which something was thrown. */
  ghost predicate TellsAll<S>(l: Lead<S>, gone: seq<Draft>, committed: bool, threw: bool) {
    forall j :: 0 <= j < |gone| ==>
      || Told(l, gone[j].id, gone[j].requestId, gone[j].zxId, committed && j == 0)
      || (threw && j == |gone| - 1 && !(committed && j == 0))
  }

  /** The vote completes the quorum. */
  lemma LastAckTells<S>(m: D.Machine<S>, l: Lead<S>, id: int, nextCount: nat, disk: set<int>) returns (n: nat)
    requires Awaited(l) && l.uncommit != [] && l.ds.uncommit != []
    ensures var l' := LaunchNextDraft(m, CommitFirst(m, Vote(l, id), nextCount), disk, true);
            && n <= |l.uncommit| && |l'.uncommit| == |l.uncommit| - n && |l'.resolved| == |l.resolved| + n
            && Later(l, l') && Awaited(l') && l'.log == l.log + [l.ds.uncommit[0]]
            && TellsAll(l', l.uncommit[..n], true, l'.throws > l.throws)
  {
    var l1 := Vote(l, id);
    var l' := LaunchNextDraft(m, CommitFirst(m, l1, nextCount), disk, true);
    VoteKeepsAwaited(l, id);
    n := CommittedTells(m, l1, nextCount, disk);
    LaterTwice(l, l1, l');
    SameDraftsTold(l', l1.uncommit[..n], l.uncommit[..n], true, l'.throws > l.throws);
  }

  lemma AckTells<S>(m: D.Machine<S>, l: Lead<S>, id: int, zxId: int, nextCount: nat, disk: set<int>) returns (n: nat)
    requires Awaited(l)
    ensures var l' := AckPropose(m, l, id, zxId, nextCount, disk);
            && n <= |l.uncommit| && |l'.uncommit| == |l.uncommit| - n && |l'.resolved| == |l.resolved| + n
            && Later(l, l') && Awaited(l') && TellsAll(l', l.uncommit[..n], l'.log != l.log, l'.throws > l.throws)
  {
    n := 0;
    assert l.uncommit[..0] == [];
    if l.uncommit != [] && l.uncommit[0].zxId == zxId {
      VoteKeepsAwaited(l, id);
      if HasQuorum(Vote(l, id).uncommit[0].vote) && D.Commit(m, l.ds, zxId, nextCount).Some? {
        n := LastAckTells(m, l, id, nextCount, disk);
      }
    }
  }

  lemma SameDraftsTold<S>(l: Lead<S>, gone: seq<Draft>, gone': seq<Draft>, committed: bool, threw: bool)
    requires TellsAll(l, gone, committed, threw) && |gone'| == |gone|
    requires forall j :: 0 <= j < |gone| ==> gone'[j] == gone[j].(vote := gone'[j].vote)
    ensures TellsAll(l, gone', committed, threw)
  {
  }

  lemma FirstIsCommitted<S>(l: Lead<S>, line: seq<Draft>, n: nat, threw: bool)
    requires line != [] && n < |line| && TellsFailures(l, line[1..][..n], threw)
    requires var d := line[0]; Told(l, d.id, d.requestId, d.zxId, true)
    ensures TellsAll(l, line[..n + 1], true, threw)
  {
    var rest := line[1..][..n];
    forall j | 1 <= j < n + 1 && !(threw && j == n)
      ensures Told(l, line[j].id, line[j].requestId, line[j].zxId, false)
    {
      assert line[j] == rest[j - 1];
    }
  }

  /** A commit, from `l` to `l1`, and then a launch, from `l1` to `l2`. */
  lemma CommitThenLaunchTells<S>(l: Lead<S>, l1: Lead<S>, l2: Lead<S>, n: nat)
    requires l.uncommit != [] && Takes(l, l1, 1) && Later(l, l1) && l1.throws == l.throws
    requires var d := l.uncommit[0]; Told(l1, d.id, d.requestId, d.zxId, true)
    requires Takes(l1, l2, n) && Later(l1, l2) && TellsFailures(l2, l1.uncommit[..n], l2.throws > l1.throws)
    ensures n + 1 <= |l.uncommit| && |l2.uncommit| == |l.uncommit| - n - 1 && |l2.resolved| == |l.resolved| + n + 1
    ensures Later(l, l2) && TellsAll(l2, l.uncommit[..n + 1], true, l2.throws > l.throws)
  {
    var d := l.uncommit[0];
    StaysTold(l1, l2, d.id, d.requestId, d.zxId, true);
    LaterTwice(l, l1, l2);
    FirstIsCommitted(l2, l.uncommit, n, l2.throws > l.throws);
  }

  lemma CommittedTells<S>(m: D.Machine<S>, l: Lead<S>, nextCount: nat, disk: set<int>) returns (n: nat)
    requires Awaited(l) && l.uncommit != [] && l.ds.uncommit != []
    ensures var l' := LaunchNextDraft(m, CommitFirst(m, l, nextCount), disk, true);
            && 1 <= n <= |l.uncommit| && |l'.uncommit| == |l.uncommit| - n && |l'.resolved| == |l.resolved| + n
            && Later(l, l') && Awaited(l') && l'.log == l.log + [l.ds.uncommit[0]]
            && TellsAll(l', l.uncommit[..n], true, l'.throws > l.throws)
  {
    var l1 := CommitFirst(m, l, nextCount);
    CommitTells(m, l, nextCount);
    n := LaunchTells(m, l1, disk);
    CommitFrame(m, l, nextCount);
    CommitThenLaunchTells(l, l1, LaunchNextDraft(m, l1, disk, true), n);
    n := n + 1;
  }

  lemma FailuresAreAll<S>(l: Lead<S>, gone: seq<Draft>, threw: bool)
    requires TellsFailures(l, gone, threw)
    ensures TellsAll(l, gone, false, threw)
  {
  }

  lemma EnqueueIsLater<S>(l: Lead<S>, id: int, requestId: int, data: string)
    ensures Later(l, Enqueue(l, id, requestId, data))
  {
  }

  lemma LaunchTellsAll<S>(m: D.Machine<S>, l: Lead<S>, disk: set<int>) returns (n: nat)
    requires Awaited(l)
    ensures var l' := LaunchNextDraft(m, l, disk, true);
            && n <= |l.uncommit| && |l'.uncommit| == |l.uncommit| - n && |l'.resolved| == |l.resolved| + n
            && Later(l, l') && Awaited(l') && l'.log == l.log
            && TellsAll(l', l.uncommit[..n], false, l'.throws > l.throws)
  {
    n := LaunchTells(m, l, disk);
    var l' := LaunchNextDraft(m, l, disk, true);
    FailuresAreAll(l', l.uncommit[..n], l'.throws > l.throws);
  }

  lemma ProposeTells<S>(m: D.Machine<S>, l: Lead<S>, id: int, requestId: int, data: string, disk: set<int>)
    returns (n: nat)
    requires Awaited(Enqueue(l, id, requestId, data))
    ensures var l0, l' := Enqueue(l, id, requestId, data), Propose(m, l, id, requestId, data, disk);
            && n <= |l0.uncommit| && |l'.uncommit| == |l0.uncommit| - n && |l'.resolved| == |l.resolved| + n
            && Later(l, l') && Awaited(l') && l'.log == l.log
            && TellsAll(l', l0.uncommit[..n], false, l'.throws > l.throws)
  {
    var l0 := Enqueue(l, id, requestId, data);
    EnqueueIsLater(l, id, requestId, data);
    if l.uncommit == [] {
      n := LaunchTellsAll(m, l0, disk);
      LaterTwice(l, l0, LaunchNextDraft(m, l0, disk, true));
    } else {
      n := 0;
      assert l0.uncommit[..0] == [];
    }
  }

  // ---- The leader's own requests stay awaited ----

  lemma RequestIsAwaited<S>(l: Lead<S>, id: int, requestId: int, data: string)
    requires Awaited(l) && id != l.id
    ensures Awaited(Enqueue(l, id, requestId, data))
  {
  }

  lemma OwnRequestIsAwaited<S>(s: Sys<S>, data: string)
    requires Awaited(s.lead) && InOrder(s) && LeadCalls(s)
    ensures Awaited(Enqueue(AddCallback(s.lead, data), s.lead.id, s.lead.nextRequestId, data))
  {
    forall k | 0 <= k < |s.lead.uncommit| && s.lead.uncommit[k].id == s.lead.id
      ensures s.lead.uncommit[k].requestId < s.lead.nextRequestId
    {
      var o := DraftIsDrafted(s, k);
    }
  }

  lemma HandleKeepsAwaited<S>(m: D.Machine<S>, s: Sys<S>, id: int, msg: Up, nextCount: nat, disk: set<int>)
    requires Awaited(s.lead) && id in s.peers && id != s.lead.id
    ensures Awaited(Handle(m, s, id, msg, nextCount, disk).lead)
  {
    match msg
    case RequestMsg(r, data) =>
      RequestIsAwaited(s.lead, id, r, data);
      var n := ProposeTells(m, s.lead, id, r, data, disk);
    case AckProposeMsg(zxId) =>
      var n := AckTells(m, s.lead, id, zxId, nextCount, disk);
  }

  lemma ReadKeepsAwaited<S>(m: D.Machine<S>, s: Sys<S>, id: int, nextCount: nat, disk: set<int>)
    requires Shape(s) && Awaited(s.lead) && Connected(s, id) && s.peers[id].up != []
    ensures Awaited(Do(m, s, LeadReads(id, nextCount, disk)).lead)
  {
    var s1 := Handle(m, Taken(s, id), id, s.peers[id].up[0], nextCount, disk);
    HandleKeepsAwaited(m, Taken(s, id), id, s.peers[id].up[0], nextCount, disk);
    LeadReadsIs(m, s, id, nextCount, disk, s1);
  }

  lemma SubmitKeepsAwaited<S>(m: D.Machine<S>, s: Sys<S>, data: string, disk: set<int>)
    requires Awaited(s.lead) && InOrder(s) && LeadCalls(s)
    ensures Awaited(Do(m, s, LeadSubmit(data, disk)).lead)
  {
    OwnRequestIsAwaited(s, data);
    var n := ProposeTells(m, AddCallback(s.lead, data), s.lead.id, s.lead.nextRequestId, data, disk);
  }

  lemma OthersKeepAwaited<S>(m: D.Machine<S>, s: Sys<S>, step: Step)
    requires Awaited(s.lead) && !step.LeadSubmit? && !step.LeadReads?
    ensures Awaited(Do(m, s, step).lead)
  {
  }

  lemma StepKeepsAwaited<S>(m: D.Machine<S>, init: S, s: Sys<S>, step: Step)
    requires Inv(m, init, s) && Awaited(s.lead)
    ensures Awaited(Do(m, s, step).lead)
  {
    if step.LeadSubmit? {
      SubmitKeepsAwaited(m, s, step.data, step.disk);
    } else if step.LeadReads? && Connected(s, step.id) && s.peers[step.id].up != [] {
      ReadKeepsAwaited(m, s, step.id, step.nextCount, step.disk);
    } else if !step.LeadReads? {
      OthersKeepAwaited(m, s, step);
    }
  }

  lemma {:induction false} RunKeepsAwaited<S>(m: D.Machine<S>, init: S, s: Sys<S>, steps: seq<Step>)
    requires Inv(m, init, s) && Awaited(s.lead) && AllowedRun(m, s, steps)
    ensures Awaited(Run(m, s, steps).lead)
    decreases |steps|
  {
    if steps != [] {
      StepKeepsInv(m, init, s, steps[0]);
      StepKeepsAwaited(m, init, s, steps[0]);
      RunKeepsAwaited(m, init, Do(m, s, steps[0]), steps[1..]);
    }
  }

  lemma OwnRequestsAreAwaited<S(!new)>(m: D.Machine<S>, init: S, s0: Sys<S>, s: Sys<S>)
    requires Reachable(m, init, s0, s)
    ensures Awaited(s.lead)
  {
    StartIsOk(m, init, s0);
    var steps :| AllowedRun(m, s0, steps) && Run(m, s0, steps) == s;
    RunKeepsAwaited(m, init, s0, steps);
  }

  // ---- What a step does to the drafts it takes out of line ----

  ghost predicate IsCalled(calls: seq<Call>, o: Origin, success: bool) {
    exists c :: c in calls && c.requestId == o.requestId && c.zxId == o.zxId && c.success == success
  }

  ghost predicate IsOnItsWay<S>(s: Sys<S>, o: Origin, success: bool) {
    o.id in s.peers && RequestAckMsg(o.requestId, success, o.zxId) in Queue(s.peers[o.id], LinkTo(s, o.id))
  }

  /** The client of draft `o` is called back, or the answer is on its way to its server, if that is connected. */
  ghost predicate IsAnswered<S>(s: Sys<S>, s': Sys<S>, o: Origin, success: bool) {
    if o.id == s.lead.id then IsCalled(s'.lead.calls, o, success)
    else Connected(s, o.id) ==> IsOnItsWay(s', o, success)
  }

  ghost predicate SettlesOne<S>(s: Sys<S>, s1: Sys<S>, n: nat, j: nat)
    requires |s.lead.resolved| + j < |s1.drafted|
  {
    var o, committed := s1.drafted[|s.lead.resolved| + j], s1.lead.log != s.lead.log && j == 0;
    Told(s1.lead, o.id, o.requestId, o.zxId, committed)
    || (s1.lead.throws > s.lead.throws && j == n - 1 && !committed)
  }

  /** From `s` to `s1` the leader has taken the drafts `gone` out of line and told their requesters. */
  ghost predicate Settles<S>(s: Sys<S>, s1: Sys<S>, n: nat) {
    && |s1.lead.resolved| == |s.lead.resolved| + n && |s.lead.resolved| + n <= |s1.drafted|
    && (forall i :: i in s.peers ==> i in s1.peers && s1.peers[i].joined == s.peers[i].joined)
    && s1.lead.id == s.lead.id && (forall i :: HasLink(s1.lead.links, i) <==> HasLink(s.lead.links, i))
    && forall j :: 0 <= j < n ==> SettlesOne(s, s1, n, j)
  }

  lemma SettlesByLine<S>(s: Sys<S>, s1: Sys<S>, line: seq<Draft>, n: nat)
    requires n <= |line| && Lined(line, s.lead.resolved, s1.drafted)
    requires TellsAll(s1.lead, line[..n], s1.lead.log != s.lead.log, s1.lead.throws > s.lead.throws)
    requires |s1.lead.resolved| == |s.lead.resolved| + n && Later(s.lead, s1.lead)
    requires forall i :: i in s.peers ==> i in s1.peers && s1.peers[i].joined == s.peers[i].joined
    ensures Settles(s, s1, n)
  {
    forall j | 0 <= j < n
      ensures SettlesOne(s, s1, n, j)
    {
      assert line[..n][j] == line[j] && Matches(line[j], s1.drafted[|s.lead.resolved| + j]);
    }
  }

  lemma AckSettles<S>(m: D.Machine<S>, s: Sys<S>, id: int, zxId: int, nextCount: nat, disk: set<int>) returns (n: nat)
    requires InOrder(s) && Awaited(s.lead) && id in s.peers && s.peers[id].up != []
    ensures Settles(s, Handle(m, Taken(s, id), id, AckProposeMsg(zxId), nextCount, disk), n)
  {
    n := AckTells(m, s.lead, id, zxId, nextCount, disk);
    SettlesByLine(s, Handle(m, Taken(s, id), id, AckProposeMsg(zxId), nextCount, disk), s.lead.uncommit, n);
  }

  lemma RequestSettles<S>(m: D.Machine<S>, s: Sys<S>, o: Origin, disk: set<int>) returns (n: nat)
    requires InOrder(s) && IsNext(s, o) && Awaited(Enqueue(s.lead, o.id, o.requestId, o.data))
    ensures Settles(s, Enqueued(s, o).(lead := Propose(m, s.lead, o.id, o.requestId, o.data, disk)), n)
  {
    var s1 := Enqueued(s, o).(lead := Propose(m, s.lead, o.id, o.requestId, o.data, disk));
    n := ProposeTells(m, s.lead, o.id, o.requestId, o.data, disk);
    EnqueueKeepsOrder(s, o);
    SettlesByLine(s, s1, Enqueued(s, o).lead.uncommit, n);
  }

  lemma SubmitSettles<S>(m: D.Machine<S>, init: S, s: Sys<S>, data: string, disk: set<int>) returns (n: nat)
    requires Inv(m, init, s) && Awaited(s.lead)
    ensures var s' := Do(m, s, LeadSubmit(data, disk)); Settles(s, s', n) && s'.lead.throws == s.lead.throws
  {
    var l := AddCallback(s.lead, data);
    var o := Origin(ZxId(s.lead.epoch, s.lead.nextId), s.lead.id, 0, s.lead.nextRequestId, data);
    var s1 := Enqueued(WithLead(s, l), o).(lead := Propose(m, l, o.id, o.requestId, o.data, disk));
    OwnRequestIsAwaited(s, data);
    n := RequestSettles(m, WithLead(s, l), o, disk);
    LeadSubmitIs(m, s, data, disk);
    SubmitGoesOn(m, s, data, disk);
    forall j | 0 <= j < n
      ensures SettlesOne(s, s1, n, j)
    {
      assert SettlesOne(WithLead(s, l), s1, n, j);
    }
  }

  lemma ForwardedSettles<S>(m: D.Machine<S>, s: Sys<S>, id: int, r: int, data: string, nextCount: nat, disk: set<int>)
    returns (n: nat)
    requires Shape(s) && InOrder(s) && Awaited(s.lead) && Connected(s, id) && s.peers[id].up != []
    ensures Settles(s, Handle(m, Taken(s, id), id, RequestMsg(r, data), nextCount, disk), n)
  {
    var t, o := Taken(s, id), Origin(ZxId(s.lead.epoch, s.lead.nextId), id, s.peers[id].session, r, data);
    var s1 := Handle(m, t, id, RequestMsg(r, data), nextCount, disk);
    RequestIsAwaited(s.lead, id, r, data);
    n := RequestSettles(m, t, o, disk);
    forall j | 0 <= j < n
      ensures SettlesOne(s, s1, n, j)
    {
      assert SettlesOne(t, s1, n, j);
    }
  }

  lemma ReadSettles<S>(m: D.Machine<S>, init: S, s: Sys<S>, id: int, nextCount: nat, disk: set<int>)
    returns (n: nat, s1: Sys<S>)
    requires Inv(m, init, s) && Awaited(s.lead) && Connected(s, id) && s.peers[id].up != []
    ensures Settles(s, s1, n) && Connected(s1, id) && Do(m, s, LeadReads(id, nextCount, disk)) == CutIfThrown(s, s1, id)
  {
    s1 := Handle(m, Taken(s, id), id, s.peers[id].up[0], nextCount, disk);
    LeadReadsIs(m, s, id, nextCount, disk, s1);
    HandleKeeps(m, init, s, id, nextCount, disk);
    match s.peers[id].up[0]
    case RequestMsg(r, data) => n := ForwardedSettles(m, s, id, r, data, nextCount, disk);
    case AckProposeMsg(zxId) => n := AckSettles(m, s, id, zxId, nextCount, disk);
  }

  /** What the result says of draft number `k` of the term. */
  ghost predicate AnswersDraft<S>(s: Sys<S>, s': Sys<S>, k: nat) {
    && k < |s'.drafted|
    && var committed := s'.lead.log != s.lead.log && k == |s.lead.resolved|;
       || IsAnswered(s, s', s'.drafted[k], committed)
       || (s'.lead.throws > s.lead.throws && k == |s'.lead.resolved| - 1 && !committed)
  }

  lemma SubmitAnswers<S>(m: D.Machine<S>, init: S, s: Sys<S>, data: string, disk: set<int>, k: nat)
    requires Inv(m, init, s) && Awaited(s.lead)
    requires forall i :: i in s.peers ==> (s.peers[i].joined <==> HasLink(s.lead.links, i))
    requires |s.lead.resolved| <= k < |Do(m, s, LeadSubmit(data, disk)).lead.resolved|
    ensures AnswersDraft(s, Do(m, s, LeadSubmit(data, disk)), k)
  {
    var s' := Do(m, s, LeadSubmit(data, disk));
    var n := SubmitSettles(m, init, s, data, disk);
    SettledIsAnswered(s, s', n, k - |s.lead.resolved|);
  }

  lemma SettledIsAnswered<S>(s: Sys<S>, s': Sys<S>, n: nat, j: nat)
    requires Settles(s, s', n) && j < n
    requires forall i :: i in s.peers ==> (s.peers[i].joined <==> HasLink(s.lead.links, i))
    ensures AnswersDraft(s, s', |s.lead.resolved| + j)
  {
    assert SettlesOne(s, s', n, j);
    var o := s'.drafted[|s.lead.resolved| + j];
    if o.id != s.lead.id && Connected(s, o.id) {
      assert LinkOf(s'.lead, o.id) == Queue(s'.peers[o.id], LinkTo(s', o.id));
    }
  }

  lemma SettledThenCut<S>(s: Sys<S>, s1: Sys<S>, id: int, n: nat, k: nat)
    requires Settles(s, s1, n) && Connected(s1, id)
    requires forall i :: i in s.peers ==> (s.peers[i].joined <==> HasLink(s.lead.links, i))
    requires |s.lead.resolved| <= k < |CutIfThrown(s, s1, id).lead.resolved|
    ensures AnswersDraft(s, CutIfThrown(s, s1, id), k)
  {
    SettledIsAnswered(s, s1, n, k - |s.lead.resolved|);
    AnsweredAfterCut(s, s1, id, k);
  }

  lemma ReadAnswers<S>(m: D.Machine<S>, init: S, s: Sys<S>, id: int, nextCount: nat, disk: set<int>, k: nat)
    requires Inv(m, init, s) && Awaited(s.lead) && Connected(s, id) && s.peers[id].up != []
    requires forall i :: i in s.peers ==> (s.peers[i].joined <==> HasLink(s.lead.links, i))
    requires |s.lead.resolved| <= k < |Do(m, s, LeadReads(id, nextCount, disk)).lead.resolved|
    ensures AnswersDraft(s, Do(m, s, LeadReads(id, nextCount, disk)), k)
  {
    var n, s1 := ReadSettles(m, init, s, id, nextCount, disk);
    SettledThenCut(s, s1, id, n, k);
  }

  /** The message the leader has handled may have cost its sender the connection: what was on its link
      can still be read. */
  lemma AnsweredAfterCut<S>(s: Sys<S>, s1: Sys<S>, id: int, k: nat)
    requires AnswersDraft(s, s1, k) && Connected(s1, id)
    ensures AnswersDraft(s, CutIfThrown(s, s1, id), k)
  {
  }

  /** Whatever takes a draft out of line, the client that asked is called back if it is the leader's own,
      and otherwise the answer is on its way to its server if that is connected: a success exactly if
      the draft is the one just committed. The one exception is the draft at which a handler throws. */
  lemma ResolvedIsAnswered<S(!new)>(m: D.Machine<S>, init: S, s0: Sys<S>, s: Sys<S>, step: Step, k: nat)
    requires Reachable(m, init, s0, s)
    requires |s.lead.resolved| <= k < |Do(m, s, step).lead.resolved|
    ensures var s' := Do(m, s, step);
            && k < |s'.drafted|
            && var committed := s'.lead.log != s.lead.log && k == |s.lead.resolved|;
               || IsAnswered(s, s', s'.drafted[k], committed)
               || (s'.lead.throws == s.lead.throws + 1 && k == |s'.lead.resolved| - 1 && !committed)
  {
    ReachableIsOk(m, init, s0, s);
    OwnRequestsAreAwaited(m, init, s0, s);
    Joined(m, init, s);
    LeaderThrowsIff(m, init, s0, s, step);
    if step.LeadSubmit? {
      SubmitAnswers(m, init, s, step.data, step.disk, k);
    } else if step.LeadReads? && Connected(s, step.id) && s.peers[step.id].up != [] {
      ReadAnswers(m, init, s, step.id, step.nextCount, step.disk, k);
    }
  }

  /** A server that has kept its place in the stream passes every answer on, once, to the client that
      waits for it; nobody else is told anything. */
  lemma AnswersArePassedOn<S>(m: D.Machine<S>, f: Follow<S>, requestId: int, success: bool, about: int, nextCount: nat)
    requires f.synced
    ensures var (f', ups) := FollowReceive(m, f, RequestAckMsg(requestId, success, about), nextCount);
            && ups == [] && f'.ds == f.ds && f'.log == f.log && requestId !in f'.callbacks
            && (forall r :: r != requestId ==> (r in f'.callbacks <==> r in f.callbacks))
            && |f'.calls| == |f.calls| + (if requestId in f.callbacks then 1 else 0)
            && (forall c :: c in f.calls ==> c in f'.calls)
            && (requestId in f.callbacks ==> Call(requestId, f.callbacks[requestId], success, about) in f'.calls)
  {
  }
}
