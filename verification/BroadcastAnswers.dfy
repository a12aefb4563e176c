/** What clients are told: in every run, and in runs in which nobody joins while the leader still has
    one of its earlier drafts in line. */
module BroadcastAnswers {
  import opened Common
  import opened BroadcastSpec
  import opened Broadcast
  import opened BroadcastSafety
  import opened BroadcastLead
  import opened BroadcastTerm
  import opened BroadcastResults
  import D = DataSetSpec

  // ---- Every run ----

  /** Every success told to a client, at the leader or at a follower that has kept its place in the
      stream, answers a draft of this server under this request number, whose bill is already part of
      this server's state; the draft is this client's own unless it comes from an earlier session. No
      request is answered twice. */
  lemma AnswersNameTheirDraft<S(!new)>(m: D.Machine<S>, init: S, s0: Sys<S>, s: Sys<S>)
    requires Reachable(m, init, s0, s)
    ensures SuccessBacked(s.drafted, s.lead.id, 0, s.lead.calls, s.lead.log)
    ensures s.lead.ds.state == D.Fold(m, init, s.lead.log)
    ensures forall j, k :: 0 <= j < k < |s.lead.calls| ==> s.lead.calls[j].requestId != s.lead.calls[k].requestId
    ensures forall o :: o in s.drafted && o.id == s.lead.id ==> o.session == 0
    ensures forall i :: i in s.peers ==> var p := s.peers[i];
              && (!p.f.astray ==>
                   && SuccessBacked(s.drafted, i, p.session, p.f.calls, p.f.log)
                   && p.f.ds.state == D.Fold(m, init, p.f.log))
              && (forall j, k :: 0 <= j < k < |p.f.calls| ==> p.f.calls[j].requestId != p.f.calls[k].requestId)
              && forall o :: o in s.drafted && o.id == i ==> o.session <= p.session
  {
    ReachableIsOk(m, init, s0, s);
    forall i | i in s.peers
      ensures var p := s.peers[i];
              && (!p.f.astray ==>
                   && SuccessBacked(s.drafted, i, p.session, p.f.calls, p.f.log)
                   && p.f.ds.state == D.Fold(m, init, p.f.log))
              && CallsOk(p.f.callbacks, p.f.nextRequestId, p.f.calls) && RequestsOk(s.drafted, i, p.session, p.f)
    {
      assert PeerOk(m, init, s.lead, s.drafted, i, s.peers[i], LinkTo(s, i));
    }
  }

  lemma OneOriginOnly(drafted: seq<Origin>, o: Origin, x: Origin)
    requires forall j, k :: 0 <= j < k < |drafted| ==> drafted[j].zxId < drafted[k].zxId
    requires o in drafted && x in drafted && o.zxId == x.zxId
    ensures o == x
  {
    var j :| 0 <= j < |drafted| && drafted[j] == o;
    var k :| 0 <= k < |drafted| && drafted[k] == x;
  }

  /** An answer at the head of a server's queue is for a draft of this server that it has applied. */
  lemma HeadIsServed<S(!new)>(m: D.Machine<S>, init: S, s0: Sys<S>, s: Sys<S>, id: int, o: Origin)
    requires Reachable(m, init, s0, s) && id in s.peers && !s.peers[id].f.astray && o in s.drafted
    requires Queue(s.peers[id], LinkTo(s, id)) != []
    requires var msg := Queue(s.peers[id], LinkTo(s, id))[0]; msg.RequestAckMsg? && msg.success && msg.zxId == o.zxId
    ensures Queue(s.peers[id], LinkTo(s, id))[0].requestId == o.requestId && o.id == id
            && BillOf(o) in s.peers[id].f.log
    ensures RequestsOk(s.drafted, id, s.peers[id].session, s.peers[id].f)
    ensures Shape(s) && (LinkTo(s, id).Some? <==> s.peers[id].joined)
  {
    ReachableIsOk(m, init, s0, s);
    var p, msg := s.peers[id], Queue(s.peers[id], LinkTo(s, id))[0];
    assert PeerOk(m, init, s.lead, s.drafted, id, p, LinkTo(s, id));
    assert Served(s.drafted, id, msg.requestId, msg.zxId, p.f.log);
    var x :| x in s.drafted && x.zxId == msg.zxId && x.id == id && x.requestId == msg.requestId && BillOf(x) in p.f.log;
    OneOriginOnly(s.drafted, o, x);
  }

  /** A follower reads the success for draft `o`: the draft is applied here, its client is told at
      most once, and what it is told is false exactly if its request number now stands for other
      data, which takes a draft from an earlier session. */
  lemma AnswerIsFalseIff<S(!new)>(m: D.Machine<S>, init: S, s0: Sys<S>, s: Sys<S>, id: int, nextCount: nat, o: Origin)
    requires Reachable(m, init, s0, s) && id in s.peers && o in s.drafted
    requires s.peers[id].f.synced && !s.peers[id].f.astray
    requires Queue(s.peers[id], LinkTo(s, id)) != []
    requires var msg := Queue(s.peers[id], LinkTo(s, id))[0]; msg.RequestAckMsg? && msg.success && msg.zxId == o.zxId
    ensures var r, f, f' := o.requestId, s.peers[id].f, Do(m, s, FollowReads(id, nextCount)).peers[id].f;
            && o.id == id && BillOf(o) in f.log
            && f'.calls == f.calls + (if r in f.callbacks then [Call(r, f.callbacks[r], true, o.zxId)] else [])
            && ((exists c :: c in f'.calls[|f.calls|..] && c.data != o.data) <==>
                r in f.callbacks && f.callbacks[r] != o.data)
            && (r in f.callbacks && f.callbacks[r] != o.data ==> o.session < s.peers[id].session)
  {
    var p, queue := s.peers[id], Queue(s.peers[id], LinkTo(s, id));
    var f := p.f;
    HeadIsServed(m, init, s0, s, id, o);
    FollowReadsIs(m, s, id, nextCount);
    var f' := AfterReading(m, p, queue, nextCount).f;
    if o.requestId in f.callbacks {
      var c := Call(o.requestId, f.callbacks[o.requestId], true, o.zxId);
      assert f'.calls[|f.calls|..] == [c] && c in [c];
    } else {
      assert f'.calls[|f.calls|..] == [];
    }
  }

  // ---- Runs in which nobody joins too early ----

  /** Nobody joins while the leader still has a draft of one of its earlier sessions in line. */
  ghost predicate Patient<S>(s: Sys<S>, step: Step) {
    step.Join? ==> forall d :: d in s.lead.uncommit ==> d.id != step.id
  }

  ghost predicate PatientRun<S>(m: D.Machine<S>, s: Sys<S>, steps: seq<Step>)
    decreases |steps|
  {
    steps != [] ==> Allowed(s, steps[0]) && Patient(s, steps[0]) && PatientRun(m, Do(m, s, steps[0]), steps[1..])
  }

  ghost predicate PatientlyReachable<S(!new)>(m: D.Machine<S>, init: S, s0: Sys<S>, s: Sys<S>) {
    Starts(m, init, s0) && exists steps :: PatientRun(m, s0, steps) && Run(m, s0, steps) == s
  }

  ghost predicate FromSession(drafted: seq<Origin>, id: int, zxId: int, session: nat) {
    exists o :: o in drafted && o.zxId == zxId && o.id == id && o.session == session
  }

  ghost predicate LineLoyal<S>(uncommit: seq<Draft>, peers: map<int, Peer<S>>, drafted: seq<Origin>) {
    forall d :: d in uncommit && d.id in peers && peers[d.id].joined ==>
      FromSession(drafted, d.id, d.zxId, peers[d.id].session)
  }

  ghost predicate PeerLoyal<S>(drafted: seq<Origin>, id: int, p: Peer<S>, queue: seq<Down>) {
    && !p.f.astray
    && (forall msg :: msg in queue && msg.RequestAckMsg? ==> FromSession(drafted, id, msg.zxId, p.session))
    && (forall c :: c in p.f.calls ==> FromSession(drafted, id, c.zxId, p.session))
  }

  /** Drafts in line, answers under way and answers given belong to the sessions that now are, and
      nobody has lost its place in the stream. */
  ghost predicate Loyal<S>(s: Sys<S>) {
    && LineLoyal(s.lead.uncommit, s.peers, s.drafted)
    && forall i :: i in s.peers ==> PeerLoyal(s.drafted, i, s.peers[i], Queue(s.peers[i], LinkTo(s, i)))
  }

  ghost predicate InLine(uncommit: seq<Draft>, id: int, zxId: int) {
    exists d :: d in uncommit && d.id == id && d.zxId == zxId
  }

  function LinkOf<S>(l: Lead<S>, id: int): seq<Down> {
    if HasLink(l.links, id) then l.links[id - 1].value else []
  }

  /** The leader has only answered and sent on what was in line. */
  ghost predicate Moves<S>(l: Lead<S>, l': Lead<S>) {
    && |l'.links| == |l.links| && (forall i :: HasLink(l'.links, i) <==> HasLink(l.links, i))
    && (forall d :: d in l'.uncommit ==> InLine(l.uncommit, d.id, d.zxId))
    && forall i, msg :: msg in LinkOf(l', i) && msg.RequestAckMsg? ==>
       msg in LinkOf(l, i) || InLine(l.uncommit, i, msg.zxId)
  }

  lemma MovesTwice<S>(l: Lead<S>, l1: Lead<S>, l2: Lead<S>)
    requires Moves(l, l1) && Moves(l1, l2)
    ensures Moves(l, l2)
  {
    forall i, zxId | InLine(l1.uncommit, i, zxId)
      ensures InLine(l.uncommit, i, zxId)
    {
      var d :| d in l1.uncommit && d.id == i && d.zxId == zxId;
    }
  }

  lemma SendAllMoves<S>(l: Lead<S>, l': Lead<S>, msg: Down)
    requires !msg.RequestAckMsg? && l'.links == SendAll(l.links, msg) && l'.uncommit == l.uncommit
    ensures Moves(l, l')
  {
    forall i, x | x in LinkOf(l', i) && x.RequestAckMsg?
      ensures x in LinkOf(l, i)
    {
      assert LinkOf(l', i) == LinkOf(l, i) + [msg];
    }
  }

  lemma ReplyMoves<S>(l: Lead<S>, k: nat, l1: Lead<S>, success: bool)
    requires k < |l.uncommit| && l1.links == l.links && forall d :: d in l1.uncommit ==> d in l.uncommit
    ensures Moves(l, Reply(l1, l.uncommit[k], success))
  {
    var d, l' := l.uncommit[k], Reply(l1, l.uncommit[k], success);
    ReplyFrame(l1, d, success);
    assert d in l.uncommit && InLine(l.uncommit, d.id, d.zxId);
    forall i, x | x in LinkOf(l', i) && x.RequestAckMsg?
      ensures x in LinkOf(l, i) || InLine(l.uncommit, i, x.zxId)
    {
      assert LinkOf(l', i) == LinkOf(l, i)
             || (i == d.id && LinkOf(l', i) == LinkOf(l, i) + [RequestAckMsg(d.requestId, success, d.zxId)]);
    }
  }

  lemma {:induction false} LaunchMoves<S>(m: D.Machine<S>, l: Lead<S>, disk: set<int>, owned: bool)
    ensures Moves(l, LaunchNextDraft(m, l, disk, owned))
    decreases |l.uncommit|
  {
    if l.uncommit != [] && l.ds.uncommit == [] {
      if Refused(m, l, disk) {
        if owned {
          ReplyMoves(l, 0, EraseFirst(l), false);
          LaunchMoves(m, DropFirst(l), disk, false);
          MovesTwice(l, DropFirst(l), LaunchNextDraft(m, DropFirst(l), disk, false));
        }
      } else if owned {
        SendAllMoves(l, LaunchFirst(l), ProposeMsg(l.uncommit[0].zxId, l.uncommit[0].data));
      }
    }
  }

  lemma CommitMoves<S>(m: D.Machine<S>, l: Lead<S>, nextCount: nat)
    requires l.uncommit != [] && l.ds.uncommit != []
    ensures Moves(l, CommitFirst(m, l, nextCount))
  {
    var d := l.uncommit[0];
    var l1 := l.(links := SendAll(l.links, CommitMsg(d.zxId)));
    SendAllMoves(l, l1, CommitMsg(d.zxId));
    var l2 := Committed(m, l, nextCount);
    ReplyMoves(l1, 0, l2, true);
    MovesTwice(l, l1, Reply(l2, d, true));
  }

  lemma VoteMoves<S>(l: Lead<S>, id: int)
    requires l.uncommit != []
    ensures Moves(l, Vote(l, id))
  {
    forall d | d in Vote(l, id).uncommit
      ensures InLine(l.uncommit, d.id, d.zxId)
    {
      var k :| 0 <= k < |l.uncommit| && Vote(l, id).uncommit[k] == d;
      assert l.uncommit[k] in l.uncommit;
    }
  }

  lemma AckMoves<S>(m: D.Machine<S>, l: Lead<S>, id: int, zxId: int, nextCount: nat, disk: set<int>)
    ensures Moves(l, AckPropose(m, l, id, zxId, nextCount, disk))
  {
    if l.uncommit != [] && l.uncommit[0].zxId == zxId {
      var l1 := Vote(l, id);
      VoteMoves(l, id);
      if HasQuorum(l1.uncommit[0].vote) && D.Commit(m, l1.ds, zxId, nextCount).Some? {
        var l2 := CommitFirst(m, l1, nextCount);
        CommitMoves(m, l1, nextCount);
        LaunchMoves(m, l2, disk, true);
        MovesTwice(l, l1, l2);
        MovesTwice(l, l2, LaunchNextDraft(m, l2, disk, true));
      }
    }
  }

  lemma MoveKeepsLoyal<S>(s: Sys<S>, l': Lead<S>)
    requires Loyal(s) && Moves(s.lead, l')
    requires forall i :: i in s.peers ==> (s.peers[i].joined <==> HasLink(s.lead.links, i))
    ensures Loyal(WithLead(s, l'))
  {
    forall d | d in l'.uncommit && d.id in s.peers && s.peers[d.id].joined
      ensures FromSession(s.drafted, d.id, d.zxId, s.peers[d.id].session)
    {
      var e :| e in s.lead.uncommit && e.id == d.id && e.zxId == d.zxId;
    }
    forall i | i in s.peers
      ensures PeerLoyal(s.drafted, i, s.peers[i], Queue(s.peers[i], LinkTo(WithLead(s, l'), i)))
    {
      var p := s.peers[i];
      if p.joined {
        assert Queue(p, LinkTo(WithLead(s, l'), i)) == LinkOf(l', i) && Queue(p, LinkTo(s, i)) == LinkOf(s.lead, i);
        forall msg | msg in LinkOf(l', i) && msg.RequestAckMsg?
          ensures FromSession(s.drafted, i, msg.zxId, p.session)
        {
          if msg !in LinkOf(s.lead, i) {
            var e :| e in s.lead.uncommit && e.id == i && e.zxId == msg.zxId;
          }
        }
      }
    }
  }

  lemma FromSessionStays(drafted: seq<Origin>, o: Origin, id: int, zxId: int, session: nat)
    requires FromSession(drafted, id, zxId, session)
    ensures FromSession(drafted + [o], id, zxId, session)
  {
    var x :| x in drafted && x.zxId == zxId && x.id == id && x.session == session;
    assert x in drafted + [o];
  }

  lemma EnqueueKeepsLoyal<S>(s: Sys<S>, o: Origin)
    requires Loyal(s) && IsNext(s, o) && (Connected(s, o.id) ==> o.session == s.peers[o.id].session)
    ensures Loyal(Enqueued(s, o))
  {
    var s' := Enqueued(s, o);
    assert o in s'.drafted;
    forall d | d in s'.lead.uncommit && d.id in s.peers && s.peers[d.id].joined
      ensures FromSession(s'.drafted, d.id, d.zxId, s.peers[d.id].session)
    {
      if d in s.lead.uncommit {
        FromSessionStays(s.drafted, o, d.id, d.zxId, s.peers[d.id].session);
      }
    }
    forall i | i in s.peers
      ensures PeerLoyal(s'.drafted, i, s.peers[i], Queue(s.peers[i], LinkTo(s', i)))
    {
      assert PeerLoyal(s.drafted, i, s.peers[i], Queue(s.peers[i], LinkTo(s, i)));
      forall zxId | FromSession(s.drafted, i, zxId, s.peers[i].session)
        ensures FromSession(s'.drafted, i, zxId, s.peers[i].session)
      {
        FromSessionStays(s.drafted, o, i, zxId, s.peers[i].session);
      }
    }
  }

  lemma ProposeKeepsLoyal<S>(m: D.Machine<S>, s: Sys<S>, o: Origin, disk: set<int>)
    requires Loyal(s) && IsNext(s, o) && (Connected(s, o.id) ==> o.session == s.peers[o.id].session)
    requires forall i :: i in s.peers ==> (s.peers[i].joined <==> HasLink(s.lead.links, i))
    ensures Loyal(Enqueued(s, o).(lead := Propose(m, s.lead, o.id, o.requestId, o.data, disk)))
  {
    EnqueueKeepsLoyal(s, o);
    if s.lead.uncommit == [] {
      LaunchMoves(m, Enqueued(s, o).lead, disk, true);
      MoveKeepsLoyal(Enqueued(s, o), LaunchNextDraft(m, Enqueued(s, o).lead, disk, true));
    }
  }

  /** A step that touches one server, which stays loyal and keeps its session. */
  lemma PeerKeepsLoyal<S>(s: Sys<S>, id: int, p: Peer<S>, l': Lead<S>)
    requires Loyal(s) && id in s.peers && p.session == s.peers[id].session && (p.joined ==> s.peers[id].joined)
    requires l'.uncommit == s.lead.uncommit && forall i :: i != id ==> LinkTo(WithLead(s, l'), i) == LinkTo(s, i)
    requires PeerLoyal(s.drafted, id, p, Queue(p, LinkTo(WithLead(s, l'), id)))
    ensures Loyal(s.(lead := l', peers := s.peers[id := p]))
  {
  }

  lemma Joined<S>(m: D.Machine<S>, init: S, s: Sys<S>)
    requires Inv(m, init, s)
    ensures forall i :: i in s.peers ==> (s.peers[i].joined <==> HasLink(s.lead.links, i))
  {
    forall i | i in s.peers
      ensures s.peers[i].joined <==> HasLink(s.lead.links, i)
    {
      assert PeerOk(m, init, s.lead, s.drafted, i, s.peers[i], LinkTo(s, i));
    }
  }

  lemma PendingHasNoAnswers(bills: seq<D.Bill>)
    ensures forall msg :: msg in Pending(bills) ==> msg.ProposeMsg?
  {
  }

  lemma JoinKeepsLoyal<S>(m: D.Machine<S>, s: Sys<S>, id: int)
    requires Loyal(s) && CanJoin(s, id) && Patient(s, Join(id))
    ensures Loyal(Do(m, s, Join(id)))
  {
    var s' := Do(m, s, Join(id));
    PendingHasNoAnswers(s.lead.ds.uncommit);
    forall i | i in s'.peers
      ensures PeerLoyal(s'.drafted, i, s'.peers[i], Queue(s'.peers[i], LinkTo(s', i)))
    {
      if i != id {
        assert LinkTo(s', i) == LinkTo(s, i);
      }
    }
  }

  lemma CutKeepsLoyal<S>(m: D.Machine<S>, init: S, s: Sys<S>, id: int)
    requires Inv(m, init, s) && Loyal(s) && Connected(s, id)
    ensures Loyal(Cut(s, id))
  {
    ForgetFrame(s, id);
    PeerKeepsLoyal(s, id, Gone(s.lead, id, s.peers[id], LinkTo(s, id)), Forget(s.lead, id));
  }

  /** An answer of this session means that the server has asked, hence is up to date. */
  lemma LoyalAnswersComeLate<S>(drafted: seq<Origin>, id: int, p: Peer<S>, msg: Down)
    requires RequestsOk(drafted, id, p.session, p.f)
    requires msg.RequestAckMsg? ==> FromSession(drafted, id, msg.zxId, p.session)
    ensures msg.RequestAckMsg? ==> p.f.synced
  {
    if msg.RequestAckMsg? {
      var o :| o in drafted && o.zxId == msg.zxId && o.id == id && o.session == p.session;
    }
  }

  lemma ReadKeepsLoyal<S>(m: D.Machine<S>, init: S, s: Sys<S>, id: int, nextCount: nat)
    requires Inv(m, init, s) && Loyal(s) && id in s.peers && Queue(s.peers[id], LinkTo(s, id)) != []
    ensures Loyal(Do(m, s, FollowReads(id, nextCount)))
  {
    var p, queue := s.peers[id], Queue(s.peers[id], LinkTo(s, id));
    var p', link' := AfterReading(m, p, queue, nextCount), if p.joined then Some(queue[1..]) else None;
    assert PeerOk(m, init, s.lead, s.drafted, id, p, LinkTo(s, id)) && PeerLoyal(s.drafted, id, p, queue);
    FollowReadsIs(m, s, id, nextCount);
    assert queue[0] in queue && forall x :: x in queue[1..] ==> x in queue;
    LoyalAnswersComeLate(s.drafted, id, p, queue[0]);
    assert forall c :: c in p'.f.calls ==> c in p.f.calls || (queue[0].RequestAckMsg? && c.zxId == queue[0].zxId);
    PeerKeepsLoyal(s, id, p', SetLink(s.lead, id, link'));
  }

  lemma TakeKeepsLoyal<S>(s: Sys<S>, id: int)
    requires Loyal(s) && Connected(s, id) && s.peers[id].up != []
    ensures Loyal(Taken(s, id))
  {
    PeerKeepsLoyal(s, id, Taken(s, id).peers[id], s.lead);
  }

  lemma HandleKeepsLoyal<S>(m: D.Machine<S>, init: S, s: Sys<S>, id: int, msg: Up, nextCount: nat, disk: set<int>)
    requires Inv(m, init, s) && Loyal(s) && id in s.peers
    ensures Loyal(Handle(m, s, id, msg, nextCount, disk))
  {
    match msg
    case RequestMsg(r, data) =>
      Joined(m, init, s);
      ProposeKeepsLoyal(m, s, Origin(ZxId(s.lead.epoch, s.lead.nextId), id, s.peers[id].session, r, data), disk);
    case AckProposeMsg(zxId) =>
      AckMoves(m, s.lead, id, zxId, nextCount, disk);
      MoveKeepsLoyal(s, Handle(m, s, id, msg, nextCount, disk).lead);
  }

  lemma CutIfThrownKeepsLoyal<S>(m: D.Machine<S>, init: S, s: Sys<S>, s': Sys<S>, id: int)
    requires Inv(m, init, s') && Loyal(s') && Connected(s', id)
    ensures Loyal(CutIfThrown(s, s', id))
  {
    CutKeepsLoyal(m, init, s', id);
  }

  lemma LeadReadsKeepsLoyal<S>(m: D.Machine<S>, init: S, s: Sys<S>, id: int, nextCount: nat, disk: set<int>)
    requires Inv(m, init, s) && Loyal(s) && Connected(s, id) && s.peers[id].up != []
    ensures Loyal(Do(m, s, LeadReads(id, nextCount, disk)))
  {
    var s' := Handle(m, Taken(s, id), id, s.peers[id].up[0], nextCount, disk);
    TakeKeeps(m, init, s, id);
    TakeKeepsLoyal(s, id);
    HandleKeepsLoyal(m, init, Taken(s, id), id, s.peers[id].up[0], nextCount, disk);
    HandleKeeps(m, init, s, id, nextCount, disk);
    CutIfThrownKeepsLoyal(m, init, s, s', id);
    LeadReadsIs(m, s, id, nextCount, disk, s');
  }

  lemma UpdateKeepsLoyal<S>(m: D.Machine<S>, s: Sys<S>, id: int)
    requires Loyal(s) && Connected(s, id)
    ensures Loyal(Do(m, s, Update(id)))
  {
    var l' := s.lead.(links := Send(s.lead.links, id, UpdatedMsg));
    PeerKeepsLoyal(s, id, s.peers[id], l');
    assert s.peers[id := s.peers[id]] == s.peers;
  }

  lemma SubmitKeepsLoyal<S>(m: D.Machine<S>, init: S, s: Sys<S>, data: string, disk: set<int>)
    requires Inv(m, init, s) && Loyal(s)
    ensures Loyal(Do(m, s, LeadSubmit(data, disk)))
  {
    var s1 := WithLead(s, AddCallback(s.lead, data));
    Joined(m, init, s);
    MoveKeepsLoyal(s, s1.lead);
    ProposeKeepsLoyal(m, s1, Origin(ZxId(s.lead.epoch, s.lead.nextId), s.lead.id, 0, s.lead.nextRequestId, data), disk);
  }

  lemma FollowSubmitKeepsLoyal<S>(m: D.Machine<S>, s: Sys<S>, id: int, data: string)
    requires Loyal(s) && id in s.peers && s.peers[id].f.synced
    ensures Loyal(Do(m, s, FollowSubmits(id, data)))
  {
    PeerKeepsLoyal(s, id, Do(m, s, FollowSubmits(id, data)).peers[id], s.lead);
  }

  lemma StepKeepsLoyal<S>(m: D.Machine<S>, init: S, s: Sys<S>, step: Step)
    requires Inv(m, init, s) && Loyal(s) && Patient(s, step)
    ensures Loyal(Do(m, s, step))
  {
    match step
    case Join(id) =>
      if CanJoin(s, id) {
        JoinKeepsLoyal(m, s, id);
      }
    case Update(id) =>
      if Connected(s, id) {
        UpdateKeepsLoyal(m, s, id);
      }
    case Leave(id) =>
      if Connected(s, id) {
        CutKeepsLoyal(m, init, s, id);
      }
    case LeadSubmit(data, disk) => SubmitKeepsLoyal(m, init, s, data, disk);
    case FollowSubmits(id, data) =>
      if id in s.peers && s.peers[id].f.synced {
        FollowSubmitKeepsLoyal(m, s, id, data);
      }
    case LeadReads(id, nextCount, disk) =>
      if Connected(s, id) && s.peers[id].up != [] {
        LeadReadsKeepsLoyal(m, init, s, id, nextCount, disk);
      }
    case FollowReads(id, nextCount) =>
      if id in s.peers && Queue(s.peers[id], LinkTo(s, id)) != [] {
        ReadKeepsLoyal(m, init, s, id, nextCount);
      }
    case ReadsAstray(id, _, _) =>
      assert id in s.peers ==> PeerLoyal(s.drafted, id, s.peers[id], Queue(s.peers[id], LinkTo(s, id)));
  }

  lemma {:induction false} PatientRunKeepsLoyal<S>(m: D.Machine<S>, init: S, s: Sys<S>, steps: seq<Step>)
    requires Inv(m, init, s) && Loyal(s) && PatientRun(m, s, steps)
    ensures Inv(m, init, Run(m, s, steps)) && Loyal(Run(m, s, steps))
    decreases |steps|
  {
    if steps != [] {
      StepKeepsInv(m, init, s, steps[0]);
      StepKeepsLoyal(m, init, s, steps[0]);
      PatientRunKeepsLoyal(m, init, Do(m, s, steps[0]), steps[1..]);
    }
  }

  lemma PatientIsReachable<S(!new)>(m: D.Machine<S>, init: S, s0: Sys<S>, s: Sys<S>)
    requires PatientlyReachable(m, init, s0, s)
    ensures Inv(m, init, s) && Loyal(s)
  {
    var steps :| PatientRun(m, s0, steps) && Run(m, s0, steps) == s;
    StartIsOk(m, init, s0);
    PatientRunKeepsLoyal(m, init, s0, steps);
  }

  /** And then nobody ever loses its place in the stream. */
  lemma NobodyGoesAstray<S(!new)>(m: D.Machine<S>, init: S, s0: Sys<S>, s: Sys<S>)
    requires PatientlyReachable(m, init, s0, s)
    ensures forall i :: i in s.peers ==> !s.peers[i].f.astray
  {
    PatientIsReachable(m, init, s0, s);
    forall i | i in s.peers
      ensures !s.peers[i].f.astray
    {
      assert PeerLoyal(s.drafted, i, s.peers[i], Queue(s.peers[i], LinkTo(s, i)));
    }
  }

  /** A backed success at a follower whose draft is of this session is true. */
  lemma LoyalAnswer(drafted: seq<Origin>, i: int, session: nat, c: Call, log: seq<D.Bill>) returns (o: Origin)
    requires forall j, k :: 0 <= j < k < |drafted| ==> drafted[j].zxId < drafted[k].zxId
    requires (exists o :: o in drafted && Backs(o, i, session, c, log)) && FromSession(drafted, i, c.zxId, session)
    ensures o in drafted && o.session == session && Backs(o, i, session, c, log)
  {
    o :| o in drafted && Backs(o, i, session, c, log);
    var x :| x in drafted && x.zxId == c.zxId && x.session == session;
    OneOriginOnly(drafted, o, x);
  }

  /** Then every success told to a client is for a write of exactly its data, which this very request
      asked for and which is already part of this server's state. */
  lemma AnswersAreTrue<S(!new)>(m: D.Machine<S>, init: S, s0: Sys<S>, s: Sys<S>, i: int, c: Call)
    requires PatientlyReachable(m, init, s0, s) && c.success
    requires if i == s.lead.id then c in s.lead.calls else i in s.peers && c in s.peers[i].f.calls
    ensures exists o ::
              && o in s.drafted && o.zxId == c.zxId && o.id == i && o.requestId == c.requestId && o.data == c.data
              && BillOf(o) in (if i == s.lead.id then s.lead.log else s.peers[i].f.log)
  {
    PatientIsReachable(m, init, s0, s);
    if i == s.lead.id {
      var o :| o in s.drafted && Backs(o, i, 0, c, s.lead.log);
    } else {
      var p := s.peers[i];
      assert PeerOk(m, init, s.lead, s.drafted, i, p, LinkTo(s, i));
      var o := LoyalAnswer(s.drafted, i, p.session, c, p.f.log);
    }
  }
}
