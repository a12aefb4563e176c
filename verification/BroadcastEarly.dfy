/** What an early join leads to: a server joins while the leader still has one of its earlier drafts in
    line. */
module BroadcastEarly {
  import opened Common
  import opened BroadcastSpec
  import opened Broadcast
  import opened BroadcastSafety
  import opened BroadcastLead
  import opened BroadcastTerm
  import opened BroadcastResults
  import opened BroadcastAnswers
  import D = DataSetSpec

  /** Some run leads from `s` to `s'`. */
  ghost predicate Gets<S(!new)>(m: D.Machine<S>, s: Sys<S>, s': Sys<S>) {
    exists steps :: AllowedRun(m, s, steps) && Run(m, s, steps) == s'
  }

  lemma GetsItself<S(!new)>(m: D.Machine<S>, s: Sys<S>)
    ensures Gets(m, s, s)
  {
    assert AllowedRun(m, s, []) && Run(m, s, []) == s;
  }

  lemma GetsThen<S(!new)>(m: D.Machine<S>, s: Sys<S>, s1: Sys<S>, step: Step)
    requires Gets(m, s, s1) && Allowed(s1, step)
    ensures Gets(m, s, Do(m, s1, step))
  {
    var steps :| AllowedRun(m, s, steps) && Run(m, s, steps) == s1;
    RunThen(m, s, steps, step);
  }

  // ---- If the draft can be committed, its success is told for other data ----

  /** Server `id`, which is `f`, has `link` to read, and the next message of server `j` completes the
      quorum of the first draft, `d`. */
  ghost predicate Waits<S>(s: Sys<S>, id: int, f: Follow<S>, link: seq<Down>, step: Step, d: Draft) {
    && Connected(s, id) && s.peers[id].f == f && !f.astray && LinkTo(s, id) == Some(link)
    && Completes(s, step) && step.id != id && s.lead.uncommit[0] == d && s.lead.ds.uncommit == [D.Bill(d.zxId, d.data)]
    && d.id == id && s.lead.id != id && s.lead.unsent.None?
  }

  lemma PendingOne(b: D.Bill)
    ensures Pending([b]) == [ProposeMsg(b.zxId, b.data)]
  {
    assert [b][1..] == [];
  }

  lemma JoinWaits<S>(m: D.Machine<S>, s: Sys<S>, id: int, step: Step, d: Draft)
    requires Shape(s) && CanJoin(s, id) && Allowed(s, Join(id)) && Completes(s, step)
    requires s.lead.uncommit[0] == d && d.id == id
    requires s.lead.ds.uncommit == [D.Bill(d.zxId, d.data)] && s.lead.unsent.None?
    ensures Waits(Do(m, s, Join(id)), id, Rejoined(s.peers[id]).f, [ProposeMsg(d.zxId, d.data)], step, d)
  {
    PendingOne(D.Bill(d.zxId, d.data));
  }

  lemma UpdateWaits<S>(m: D.Machine<S>, s: Sys<S>, id: int, f: Follow<S>, link: seq<Down>, step: Step, d: Draft)
    requires Waits(s, id, f, link, step, d)
    ensures Waits(Do(m, s, Update(id)), id, f, link + [UpdatedMsg], step, d)
  {
  }

  lemma ReadWaits<S>(m: D.Machine<S>, s: Sys<S>, id: int, f: Follow<S>, link: seq<Down>, step: Step, d: Draft)
    requires Waits(s, id, f, link, step, d) && link != []
    requires !FollowReceive(m, f, link[0], 0).0.astray
    ensures Waits(Do(m, s, FollowReads(id, 0)), id, FollowReceive(m, f, link[0], 0).0, link[1..], step, d)
  {
  }

  lemma SubmitWaits<S>(m: D.Machine<S>, s: Sys<S>, id: int, f: Follow<S>, link: seq<Down>, step: Step, d: Draft,
                       data: string)
    requires Waits(s, id, f, link, step, d) && f.synced
    ensures Waits(Do(m, s, FollowSubmits(id, data)), id, FollowSubmit(f, data).0, link, step, d)
  {
  }

  /** The server is up to date, has the draft logged, and has asked `n` times to write `data`. */
  ghost predicate Asks<S>(f: Follow<S>, d: Draft, n: nat, data: string) {
    && f.synced && f.ds.uncommit == [D.Bill(d.zxId, d.data)] && f.nextRequestId == n + 1
    && (forall r :: 1 <= r <= n ==> r in f.callbacks && f.callbacks[r] == data)
  }

  lemma {:induction false} AsksOften<S(!new)>(m: D.Machine<S>, s0: Sys<S>, s: Sys<S>, id: int, f: Follow<S>, step: Step,
                                              d: Draft, k: nat, n: nat, data: string)
      returns (s': Sys<S>, f': Follow<S>)
    requires Gets(m, s0, s) && Waits(s, id, f, [], step, d) && Asks(f, d, k, data) && k <= n
    ensures Gets(m, s0, s') && Waits(s', id, f', [], step, d) && Asks(f', d, n, data)
    decreases n - k
  {
    s', f' := s, f;
    if k < n {
      SubmitWaits(m, s, id, f, [], step, d, data);
      GetsThen(m, s0, s, FollowSubmits(id, data));
      var s1, f1 := Do(m, s, FollowSubmits(id, data)), FollowSubmit(f, data).0;
      s', f' := AsksOften(m, s0, s1, id, f1, step, d, k + 1, n, data);
    }
  }

  lemma IsUpToDate<S(!new)>(m: D.Machine<S>, s0: Sys<S>, id: int, f: Follow<S>, step: Step, d: Draft)
      returns (s': Sys<S>, f': Follow<S>)
    requires Waits(s0, id, f, [ProposeMsg(d.zxId, d.data)], step, d)
    requires f.ds.uncommit == [] && f.nextRequestId == 1 && !f.synced
    ensures Gets(m, s0, s') && Waits(s', id, f', [], step, d) && Asks(f', d, 0, "")
  {
    var p := ProposeMsg(d.zxId, d.data);
    GetsItself(m, s0);
    UpdateWaits(m, s0, id, f, [p], step, d);
    GetsThen(m, s0, s0, Update(id));
    var s1 := Do(m, s0, Update(id));
    assert [p] + [UpdatedMsg] == [p, UpdatedMsg] && [p, UpdatedMsg][1..] == [UpdatedMsg] && [UpdatedMsg][1..] == [];
    ReadWaits(m, s1, id, f, [p, UpdatedMsg], step, d);
    GetsThen(m, s0, s1, FollowReads(id, 0));
    var s2, f2 := Do(m, s1, FollowReads(id, 0)), FollowReceive(m, f, p, 0).0;
    assert [] + [D.Bill(d.zxId, d.data)] == [D.Bill(d.zxId, d.data)];
    ReadWaits(m, s2, id, f2, [UpdatedMsg], step, d);
    GetsThen(m, s0, s2, FollowReads(id, 0));
    s', f' := Do(m, s2, FollowReads(id, 0)), FollowReceive(m, f2, UpdatedMsg, 0).0;
  }

  // ---- The commit ----

  /** On every link something has at most been added. */
  ghost predicate Adds<S>(l: Lead<S>, l': Lead<S>) {
    |l'.links| == |l.links| && forall i :: HasLink(l.links, i) ==> HasLink(l'.links, i) && LinkOf(l, i) <= LinkOf(l', i)
  }

  lemma AddsTwice<S>(l: Lead<S>, l1: Lead<S>, l2: Lead<S>)
    requires Adds(l, l1) && Adds(l1, l2)
    ensures Adds(l, l2)
  {
    forall i | HasLink(l.links, i)
      ensures LinkOf(l, i) <= LinkOf(l2, i)
    {
      assert LinkOf(l, i) <= LinkOf(l1, i) <= LinkOf(l2, i);
    }
  }

  lemma {:induction false} LaunchAdds<S>(m: D.Machine<S>, l: Lead<S>, disk: set<int>, owned: bool)
    ensures Adds(l, LaunchNextDraft(m, l, disk, owned))
    decreases |l.uncommit|
  {
    if l.uncommit != [] && l.ds.uncommit == [] && Refused(m, l, disk) && owned {
      LaunchAdds(m, DropFirst(l), disk, false);
      AddsTwice(l, DropFirst(l), LaunchNextDraft(m, DropFirst(l), disk, false));
    }
  }

  /** The answer follows the commit on the requester's link. */
  lemma CommitAnswers<S>(m: D.Machine<S>, l: Lead<S>, nextCount: nat, id: int)
    requires l.uncommit != [] && l.ds.uncommit != [] && l.uncommit[0].id == id != l.id
    requires HasLink(l.links, id) && l.links[id - 1] == Some([])
    ensures var d, l' := l.uncommit[0], CommitFirst(m, l, nextCount);
            HasLink(l'.links, id) && LinkOf(l', id) == [CommitMsg(d.zxId), RequestAckMsg(d.requestId, true, d.zxId)]
  {
    var d := l.uncommit[0];
    assert [] + [CommitMsg(d.zxId)] == [CommitMsg(d.zxId)];
    assert [CommitMsg(d.zxId)] + [RequestAckMsg(d.requestId, true, d.zxId)] ==
           [CommitMsg(d.zxId), RequestAckMsg(d.requestId, true, d.zxId)];
  }

  lemma CutLeavesOthers<S>(s: Sys<S>, j: int, id: int)
    requires j in s.peers && id in s.peers && id != j
    ensures Cut(s, j).peers.Keys == s.peers.Keys && Cut(s, j).peers[id] == s.peers[id]
    ensures LinkTo(Cut(s, j), id) == LinkTo(s, id)
  {
  }

  /** The acknowledgement is handled: commit and answer are on their way. */
  lemma IsAnswered<S>(m: D.Machine<S>, s: Sys<S>, id: int, f: Follow<S>, step: Step, d: Draft)
    requires Waits(s, id, f, [], step, d)
    ensures var s' := Do(m, s, step);
            && Connected(s', id) && s'.peers[id].f == f && LinkTo(s', id).Some?
            && [CommitMsg(d.zxId), RequestAckMsg(d.requestId, true, d.zxId)] <= LinkTo(s', id).value
  {
    var j, n, disk := step.id, step.nextCount, step.disk;
    var l1 := Vote(s.lead, j);
    var l2 := CommitFirst(m, l1, n);
    VoteFrame(s.lead, j);
    CommitAnswers(m, l1, n, id);
    LaunchAdds(m, l2, disk, true);
    assert LinkOf(l2, id) <= LinkOf(LaunchNextDraft(m, l2, disk, true), id);
    AckIs(m, s.lead, j, d.zxId, n, disk);
    var s1 := Handle(m, Taken(s, j), j, s.peers[j].up[0], n, disk);
    LeadReadsIs(m, s, j, n, disk, s1);
    CutLeavesOthers(s1, j, id);
  }

  // ---- The answer is read ----

  /** A read by a server that is connected and has kept its place. */
  lemma ReadIs<S>(m: D.Machine<S>, s: Sys<S>, id: int)
    requires Connected(s, id) && !s.peers[id].f.astray && LinkTo(s, id).Some? && LinkTo(s, id).value != []
    ensures var s' := Do(m, s, FollowReads(id, 0));
            && Connected(s', id) && LinkTo(s', id) == Some(LinkTo(s, id).value[1..])
            && s'.peers[id].f == FollowReceive(m, s.peers[id].f, LinkTo(s, id).value[0], 0).0
  {
  }

  lemma ReadsBoth<S>(m: D.Machine<S>, f: Follow<S>, d: Draft, data: string)
    requires 1 <= d.requestId && Asks(f, d, d.requestId, data) && !f.astray
    ensures var f1 := FollowReceive(m, f, CommitMsg(d.zxId), 0).0;
            && !f1.astray
            && Call(d.requestId, data, true, d.zxId) in
                 FollowReceive(m, f1, RequestAckMsg(d.requestId, true, d.zxId), 0).0.calls
  {
    var f1 := FollowReceive(m, f, CommitMsg(d.zxId), 0).0;
    assert f1.callbacks == f.callbacks && f1.synced;
  }

  lemma IsTold<S(!new)>(m: D.Machine<S>, s0: Sys<S>, s: Sys<S>, id: int, f: Follow<S>, d: Draft, data: string)
      returns (s': Sys<S>)
    requires Gets(m, s0, s) && Connected(s, id) && s.peers[id].f == f && LinkTo(s, id).Some? && !f.astray
    requires [CommitMsg(d.zxId), RequestAckMsg(d.requestId, true, d.zxId)] <= LinkTo(s, id).value
    requires 1 <= d.requestId && Asks(f, d, d.requestId, data)
    ensures Gets(m, s0, s') && id in s'.peers && Call(d.requestId, data, true, d.zxId) in s'.peers[id].f.calls
  {
    var link := LinkTo(s, id).value;
    assert link[0] == CommitMsg(d.zxId) && link[1..][0] == RequestAckMsg(d.requestId, true, d.zxId);
    ReadsBoth(m, f, d, data);
    ReadIs(m, s, id);
    GetsThen(m, s0, s, FollowReads(id, 0));
    var s1 := Do(m, s, FollowReads(id, 0));
    ReadIs(m, s1, id);
    GetsThen(m, s0, s1, FollowReads(id, 0));
    s' := Do(m, s1, FollowReads(id, 0));
  }

  // ---- Main results ----

  lemma FirstIsNumbered<S>(m: D.Machine<S>, init: S, s: Sys<S>, id: int)
    requires Inv(m, init, s) && id in s.peers && s.lead.uncommit != [] && s.lead.uncommit[0].id == id
    ensures 1 <= s.lead.uncommit[0].requestId
  {
    var o := DraftIsDrafted(s, 0);
    assert PeerOk(m, init, s.lead, s.drafted, id, s.peers[id], LinkTo(s, id));
  }

  lemma CanWait<S>(m: D.Machine<S>, init: S, s: Sys<S>, id: int, step: Step)
    requires Inv(m, init, s) && CanJoin(s, id) && Allowed(s, Join(id)) && Completes(s, step)
    requires s.lead.uncommit[0].id == id
    ensures var d := s.lead.uncommit[0];
            && Waits(Do(m, s, Join(id)), id, Rejoined(s.peers[id]).f, [ProposeMsg(d.zxId, d.data)], step, d)
            && 1 <= d.requestId
  {
    assert s.peers[step.id].up[0] in s.peers[step.id].up;
    AckMeansLaunched(m, init, s, step.id);
    FirstIsNumbered(m, init, s, id);
    JoinWaits(m, s, id, step, s.lead.uncommit[0]);
  }

  /** If a server joins while its own draft is first in line and the acknowledgement that commits it is
      on the way, then, whatever data the server's client likes to write, some continuation tells it that
      this is done, although the draft is for other data. */
  lemma EarlyJoinTellsFalsely<S(!new)>(m: D.Machine<S>, init: S, s0: Sys<S>, s: Sys<S>, id: int, step: Step,
                                       data: string)
    requires Reachable(m, init, s0, s) && CanJoin(s, id) && Allowed(s, Join(id))
    requires Completes(s, step) && s.lead.uncommit[0].id == id && s.lead.uncommit[0].data != data
    ensures var d := s.lead.uncommit[0];
            exists s' :: Gets(m, Do(m, s, Join(id)), s') && id in s'.peers
                         && Call(d.requestId, data, true, d.zxId) in s'.peers[id].f.calls
  {
    var d, s1 := s.lead.uncommit[0], Do(m, s, Join(id));
    assert Waits(s1, id, Rejoined(s.peers[id]).f, [ProposeMsg(d.zxId, d.data)], step, d) && 1 <= d.requestId by {
      ReachableIsOk(m, init, s0, s);
      CanWait(m, init, s, id, step);
    }
    var s2, f2 := IsUpToDate(m, s1, id, Rejoined(s.peers[id]).f, step, d);
    var s3, f3 := AsksOften(m, s1, s2, id, f2, step, d, 0, d.requestId, data);
    IsAnswered(m, s3, id, f3, step, d);
    GetsThen(m, s1, s3, step);
    var s' := IsTold(m, s1, Do(m, s3, step), id, f3, d, data);
  }

  lemma ToldIsCommitted(drafted: seq<Origin>, i: int, session: nat, calls: seq<Call>, log: seq<D.Bill>,
                           whole: seq<D.Bill>, c: Call)
    requires SuccessBacked(drafted, i, session, calls, log) && c in calls && c.success && log <= whole
    ensures exists b :: b in whole && b.zxId == c.zxId
  {
    var o :| o in drafted && Backs(o, i, session, c, log);
    assert BillOf(o) in whole;
  }

  /** If the term is stalled, an early join does no harm: of no draft in line is success ever told to
      a follower's client. */
  lemma StalledJoinIsHarmless<S(!new)>(m: D.Machine<S>, init: S, s0: Sys<S>, s: Sys<S>, steps: seq<Step>, i: int,
                                       c: Call, d: Draft)
    requires Reachable(m, init, s0, s) && Stalled(s.lead) && AllowedRun(m, s, steps) && d in s.lead.uncommit
    requires i in Run(m, s, steps).peers
    requires var p := Run(m, s, steps).peers[i]; 0 < p.session && !p.f.astray && c in p.f.calls && c.success
    ensures c.zxId != d.zxId
  {
    var s' := Run(m, s, steps);
    ReachableIsOk(m, init, s0, s);
    assert forall b :: b in s.lead.log ==> b.zxId < d.zxId;
    StallLasts(m, init, s, steps);
    assert Inv(m, init, s') by {
      RunKeepsInv(m, init, s, steps);
    }
    LogIsPrefix(m, init, s', i);
    ToldIsCommitted(s'.drafted, i, s'.peers[i].session, s'.peers[i].f.calls, s'.peers[i].f.log, s.lead.log, c);
  }
}
