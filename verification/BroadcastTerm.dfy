/** Joining, leaving and reading messages keep the invariant of the term. */
module BroadcastTerm {
  import opened Common
  import opened BroadcastSpec
  import opened Broadcast
  import opened BroadcastSafety
  import opened BroadcastLead
  import D = DataSetSpec

  // ---- One server changes ----

  function WithPeer<S>(s: Sys<S>, id: int, p: Peer<S>, link: Option<seq<Down>>): Sys<S> {
    s.(lead := SetLink(s.lead, id, link), peers := s.peers[id := p])
  }

  lemma VotesStay<S>(leader: int, uncommit: seq<Draft>, peers: map<int, Peer<S>>, id: int, p: Peer<S>)
    requires forall d, j :: d in uncommit && HasVote(d, j) ==> VoteBacked(leader, peers, d, j)
    requires id in peers && forall b :: Holds(peers[id].f, b) ==> Holds(p.f, b)
    ensures forall d, j :: d in uncommit && HasVote(d, j) ==> VoteBacked(leader, peers[id := p], d, j)
  {
    forall d, j | d in uncommit && HasVote(d, j)
      ensures VoteBacked(leader, peers[id := p], d, j)
    {
      assert VoteBacked(leader, peers, d, j);
    }
  }

  lemma SetLinkFrame<S>(l: Lead<S>, id: int, link: Option<seq<Down>>)
    ensures var l' := SetLink(l, id, link);
            && l' == l.(links := l'.links) && |l'.links| == |l.links|
            && forall i :: i != id ==> (HasLink(l'.links, i) <==> HasLink(l.links, i))
  {
  }

  /** The leader's side of such a change: only who is linked matters. */
  lemma LeadStaysOk<S>(m: D.Machine<S>, init: S, s: Sys<S>, id: int, p: Peer<S>, l': Lead<S>)
    requires LeadOk(m, init, s) && id in s.peers && forall b :: Holds(s.peers[id].f, b) ==> Holds(p.f, b)
    requires l' == s.lead.(links := l'.links, unsent := l'.unsent) && |l'.links| == |s.lead.links| && UnsentOk(l')
    requires forall i :: i != id ==> (HasLink(l'.links, i) <==> HasLink(s.lead.links, i))
    ensures LeadOk(m, init, s.(lead := l', peers := s.peers[id := p]))
  {
    VotesStay(s.lead.id, s.lead.uncommit, s.peers, id, p);
    assert !HasLink(s.lead.links, s.lead.id) && id != s.lead.id;
  }

  lemma OthersStay<S>(m: D.Machine<S>, init: S, s: Sys<S>, id: int, p: Peer<S>, l': Lead<S>)
    requires PeersOk(m, init, s) && id in s.peers && PeerOk(m, init, l', s.drafted, id, p, LinkTo(WithLead(s, l'), id))
    requires l'.log == s.lead.log && l'.ds == s.lead.ds && l'.epoch == s.lead.epoch
    requires forall i :: i != id ==> LinkTo(WithLead(s, l'), i) == LinkTo(s, i) && SentTo(l', i) == SentTo(s.lead, i)
    requires l'.unsent.Some? <==> s.lead.unsent.Some?
    ensures PeersOk(m, init, s.(lead := l', peers := s.peers[id := p]))
  {
    var s' := s.(lead := l', peers := s.peers[id := p]);
    forall i | i in s'.peers
      ensures PeerOk(m, init, l', s.drafted, i, s'.peers[i], LinkTo(s', i))
    {
      if i != id {
        assert PeerOk(m, init, s.lead, s.drafted, i, s.peers[i], LinkTo(s, i));
      }
    }
  }

  /** A step that touches one server and its link keeps the invariant if that server stays in order
      and forgets no bill. */
  lemma PeerChangeKeeps<S>(m: D.Machine<S>, init: S, s: Sys<S>, id: int, p: Peer<S>, link: Option<seq<Down>>)
    requires Inv(m, init, s) && id in s.peers && PeerOk(m, init, s.lead, s.drafted, id, p, link)
    requires forall b :: Holds(s.peers[id].f, b) ==> Holds(p.f, b)
    requires s.lead.unsent.Some? && id in s.lead.unsent.value ==> link.Some?
    ensures Inv(m, init, WithPeer(s, id, p, link))
  {
    var l' := SetLink(s.lead, id, link);
    SetLinkFrame(s.lead, id, link);
    LeadStaysOk(m, init, s, id, p, l');
    PeerStays(m, init, s.lead, l', s.drafted, id, p, link);
    OthersStay(m, init, s, id, p, l');
  }

  // ---- The leader drops a connection ----

  lemma GoneOk<S>(m: D.Machine<S>, init: S, l: Lead<S>, l': Lead<S>, drafted: seq<Origin>, id: int, p: Peer<S>,
                  link: Option<seq<Down>>)
    requires PeerOk(m, init, l, drafted, id, p, link) && p.joined && l'.log == l.log
    ensures PeerOk(m, init, l', drafted, id, Gone(l, id, p, link), None)
  {
  }

  lemma ForgetFrame<S>(s: Sys<S>, id: int)
    requires Shape(s) && UnsentOk(s.lead) && id in s.peers
    ensures var l, l' := s.lead, Forget(s.lead, id);
            && l' == l.(links := l'.links, unsent := l'.unsent) && |l'.links| == |l.links| && UnsentOk(l')
            && (forall i :: i != id ==> (HasLink(l'.links, i) <==> HasLink(l.links, i)))
            && (forall i :: i != id ==> LinkTo(WithLead(s, l'), i) == LinkTo(s, i) && SentTo(l', i) == SentTo(l, i))
            && LinkTo(WithLead(s, l'), id) == None && (l'.unsent.Some? <==> l.unsent.Some?)
  {
  }

  lemma CutKeeps<S>(m: D.Machine<S>, init: S, s: Sys<S>, id: int)
    requires Inv(m, init, s) && Connected(s, id)
    ensures Inv(m, init, Cut(s, id))
  {
    var l', p := Forget(s.lead, id), Gone(s.lead, id, s.peers[id], LinkTo(s, id));
    ForgetFrame(s, id);
    LeadStaysOk(m, init, s, id, p, l');
    GoneOk(m, init, s.lead, l', s.drafted, id, s.peers[id], LinkTo(s, id));
    OthersStay(m, init, s, id, p, l');
  }

  // ---- A server joins and is told that it is up to date ----

  predicate CanJoin<S>(s: Sys<S>, id: int) {
    id in s.peers && !s.peers[id].joined && s.peers[id].f.ds.zxId == s.lead.ds.zxId
  }

  /** Equal last ids mean equal logs. */
  lemma SameIdSameLog<S>(m: D.Machine<S>, init: S, l: Lead<S>, drafted: seq<Origin>, id: int, p: Peer<S>,
                         link: Option<seq<Down>>)
    requires LeadLog(m, init, l) && PeerOk(m, init, l, drafted, id, p, link)
    requires !p.joined && !p.f.astray && p.f.ds.zxId == l.ds.zxId
    ensures p.f.log == l.log
  {
    LeadsConserves(drafted, id, p.f.log, p.f.ds.uncommit, p.rest, p.cutLog, p.cutUncommit);
    var log, whole := p.f.log, l.log;
    if log <= whole {
      assert log == whole[..|log|];
      assert log != [] ==> log[|log| - 1] == whole[|log| - 1];
    }
  }

  lemma PendingLeads<S>(s: Sys<S>, id: int)
    requires InOrder(s) && AtMostOne(s.lead)
    ensures var u := s.lead.ds.uncommit;
            && Leads(s.drafted, id, s.lead.log, [], Pending(u), s.lead.log, u)
            && (u != [] ==> Pending(u) == [ProposeMsg(u[0].zxId, u[0].data)])
  {
    var u := s.lead.ds.uncommit;
    if u != [] {
      var o := DraftIsDrafted(s, 0);
      assert u[1..] == [] && Pending(u)[1..] == Pending([]) && [] + [u[0]] == u;
    }
  }

  lemma RejoinedFollowOk<S>(m: D.Machine<S>, init: S, drafted: seq<Origin>, id: int, p: Peer<S>, queue: seq<Down>,
                            log': seq<D.Bill>, uncommit': seq<D.Bill>)
    requires LogOk(m, init, p.f.ds, p.f.log) && !p.f.threw && !p.f.astray && RequestsOk(drafted, id, p.session, p.f)
    requires Leads(drafted, id, p.f.log, p.f.ds.uncommit, queue, log', uncommit')
    ensures FollowOk(m, init, drafted, id, p.session + 1, Rejoined(p).f, queue, log', uncommit')
  {
  }

  lemma JoinerOk<S>(m: D.Machine<S>, init: S, s: Sys<S>, id: int)
    requires Inv(m, init, s) && CanJoin(s, id) && Allowed(s, Join(id))
    ensures PeerOk(m, init, s.lead, s.drafted, id, Rejoined(s.peers[id]), Some(Pending(s.lead.ds.uncommit)))
  {
    var p, l := s.peers[id], s.lead;
    assert PeerOk(m, init, l, s.drafted, id, p, LinkTo(s, id));
    SameIdSameLog(m, init, l, s.drafted, id, p, LinkTo(s, id));
    PendingLeads(s, id);
    assert !HasLink(l.links, id) && SentTo(l, id) == l.ds.uncommit;
    RejoinedFollowOk(m, init, s.drafted, id, p, Pending(l.ds.uncommit), l.log, l.ds.uncommit);
  }

  lemma JoinKeeps<S>(m: D.Machine<S>, init: S, s: Sys<S>, id: int)
    requires Inv(m, init, s) && Allowed(s, Join(id))
    ensures Inv(m, init, Do(m, s, Join(id)))
  {
    if CanJoin(s, id) {
      JoinerOk(m, init, s, id);
      PeerChangeKeeps(m, init, s, id, Rejoined(s.peers[id]), Some(Pending(s.lead.ds.uncommit)));
    }
  }

  lemma PeerUpdated<S>(m: D.Machine<S>, init: S, l: Lead<S>, drafted: seq<Origin>, id: int, p: Peer<S>, link: seq<Down>)
    requires PeerOk(m, init, l, drafted, id, p, Some(link))
    ensures PeerOk(m, init, l, drafted, id, p, Some(link + [UpdatedMsg]))
  {
    if !p.f.astray {
      assert Leads(drafted, id, l.log, SentTo(l, id), [UpdatedMsg], l.log, SentTo(l, id));
      LeadsThen(drafted, id, p.f.log, p.f.ds.uncommit, link, l.log, SentTo(l, id), UpdatedMsg, l.log, SentTo(l, id));
      assert link != [] ==> (link + [UpdatedMsg])[1..] == link[1..] + [UpdatedMsg];
    }
  }

  lemma UpdateIs<S>(m: D.Machine<S>, s: Sys<S>, id: int)
    requires Connected(s, id) && LinkTo(s, id).Some?
    ensures Do(m, s, Update(id)) == WithPeer(s, id, s.peers[id], Some(LinkTo(s, id).value + [UpdatedMsg]))
  {
    assert s.peers[id := s.peers[id]] == s.peers;
  }

  lemma UpdateKeeps<S>(m: D.Machine<S>, init: S, s: Sys<S>, id: int)
    requires Inv(m, init, s) && Connected(s, id)
    ensures Inv(m, init, Do(m, s, Update(id)))
  {
    var p, link := s.peers[id], LinkTo(s, id);
    assert PeerOk(m, init, s.lead, s.drafted, id, p, link);
    UpdateIs(m, s, id);
    assert Inv(m, init, WithPeer(s, id, p, Some(link.value + [UpdatedMsg]))) by {
      PeerUpdated(m, init, s.lead, s.drafted, id, p, link.value);
      PeerChangeKeeps(m, init, s, id, p, Some(link.value + [UpdatedMsg]));
    }
  }

  // ---- Requests ----

  lemma AddCallbackKeeps<S>(m: D.Machine<S>, init: S, s: Sys<S>, data: string)
    requires Inv(m, init, s)
    ensures Inv(m, init, WithLead(s, AddCallback(s.lead, data)))
  {
    PeersStay(m, init, s, AddCallback(s.lead, data));
  }

  lemma LeadSubmitIs<S>(m: D.Machine<S>, s: Sys<S>, data: string, disk: set<int>)
    ensures var s1 := WithLead(s, AddCallback(s.lead, data));
            var o := Origin(ZxId(s.lead.epoch, s.lead.nextId), s.lead.id, 0, s.lead.nextRequestId, data);
            Do(m, s, LeadSubmit(data, disk)) ==
            Enqueued(s1, o).(lead := Propose(m, s1.lead, o.id, o.requestId, o.data, disk))
  {
  }

  lemma LeadSubmitKeeps<S>(m: D.Machine<S>, init: S, s: Sys<S>, data: string, disk: set<int>)
    requires Inv(m, init, s)
    ensures Inv(m, init, Do(m, s, LeadSubmit(data, disk)))
  {
    var s1 := WithLead(s, AddCallback(s.lead, data));
    var o := Origin(ZxId(s.lead.epoch, s.lead.nextId), s.lead.id, 0, s.lead.nextRequestId, data);
    AddCallbackKeeps(m, init, s, data);
    ProposeKeeps(m, init, s1, o, disk);
    LeadSubmitIs(m, s, data, disk);
  }

  lemma SubmittedOk<S>(m: D.Machine<S>, init: S, l: Lead<S>, drafted: seq<Origin>, id: int, p: Peer<S>,
                       link: Option<seq<Down>>, data: string)
    requires PeerOk(m, init, l, drafted, id, p, link) && p.f.synced
    ensures var (f, msg) := FollowSubmit(p.f, data);
            PeerOk(m, init, l, drafted, id, p.(f := f, up := if p.joined then p.up + [msg] else p.up), link)
  {
    var (f, msg) := FollowSubmit(p.f, data);
    assert forall zxId :: AckBacked(drafted, p.f, zxId) ==> AckBacked(drafted, f, zxId);
  }

  function AfterSubmit<S>(p: Peer<S>, data: string): Peer<S> {
    var (f, msg) := FollowSubmit(p.f, data);
    p.(f := f, up := if p.joined then p.up + [msg] else p.up)
  }

  lemma FollowSubmitIs<S>(m: D.Machine<S>, s: Sys<S>, id: int, data: string)
    requires id in s.peers && s.peers[id].f.synced
    ensures Do(m, s, FollowSubmits(id, data)) == WithPeer(s, id, AfterSubmit(s.peers[id], data), LinkTo(s, id))
  {
    assert SetLink(s.lead, id, LinkTo(s, id)) == s.lead;
  }

  lemma FollowSubmitKeeps<S>(m: D.Machine<S>, init: S, s: Sys<S>, id: int, data: string)
    requires Inv(m, init, s) && id in s.peers && s.peers[id].f.synced
    ensures Inv(m, init, Do(m, s, FollowSubmits(id, data)))
  {
    FollowSubmitIs(m, s, id, data);
    assert Inv(m, init, WithPeer(s, id, AfterSubmit(s.peers[id], data), LinkTo(s, id))) by {
      assert PeerOk(m, init, s.lead, s.drafted, id, s.peers[id], LinkTo(s, id));
      SubmittedOk(m, init, s.lead, s.drafted, id, s.peers[id], LinkTo(s, id), data);
      PeerChangeKeeps(m, init, s, id, AfterSubmit(s.peers[id], data), LinkTo(s, id));
    }
  }

  // ---- The leader reads ----

  lemma TakenOk<S>(m: D.Machine<S>, init: S, l: Lead<S>, drafted: seq<Origin>, id: int, p: Peer<S>,
                   link: Option<seq<Down>>)
    requires PeerOk(m, init, l, drafted, id, p, link) && p.up != []
    ensures PeerOk(m, init, l, drafted, id, p.(up := p.up[1..]), link)
  {
    assert forall x :: x in p.up[1..] ==> x in p.up;
  }

  lemma TakeKeeps<S>(m: D.Machine<S>, init: S, s: Sys<S>, id: int)
    requires Inv(m, init, s) && Connected(s, id) && s.peers[id].up != []
    ensures Inv(m, init, Taken(s, id)) && Connected(Taken(s, id), id)
  {
    var p := s.peers[id];
    assert PeerOk(m, init, s.lead, s.drafted, id, p, LinkTo(s, id));
    TakenOk(m, init, s.lead, s.drafted, id, p, LinkTo(s, id));
    PeerChangeKeeps(m, init, s, id, p.(up := p.up[1..]), LinkTo(s, id));
    assert SetLink(s.lead, id, LinkTo(s, id)) == s.lead;
  }

  lemma OneOriginPerId<S>(s: Sys<S>, o: Origin)
    requires InOrder(s) && s.lead.uncommit != [] && o in s.drafted && o.zxId == s.lead.uncommit[0].zxId
    ensures BillOf(o) == FirstBill(s.lead)
  {
    var first := DraftIsDrafted(s, 0);
    var k :| 0 <= k < |s.drafted| && s.drafted[k] == o;
    assert k == |s.lead.resolved|;
  }

  /** An acknowledgement of the first draft shows that it was launched and that its sender holds it. */
  lemma AckMeansLaunched<S>(m: D.Machine<S>, init: S, s: Sys<S>, id: int)
    requires Inv(m, init, s) && Connected(s, id) && s.lead.uncommit != []
    requires AckProposeMsg(s.lead.uncommit[0].zxId) in s.peers[id].up
    ensures Launched(s.lead) && Holds(s.peers[id].f, FirstBill(s.lead))
  {
    var p, l, link := s.peers[id], s.lead, LinkTo(s, id);
    assert PeerOk(m, init, l, s.drafted, id, p, link);
    var o :| o in s.drafted && o.zxId == l.uncommit[0].zxId && Holds(p.f, BillOf(o));
    OneOriginPerId(s, o);
    HeldIsSent(s.drafted, id, p.f.log, p.f.ds.uncommit, link.value, l.log, SentTo(l, id), BillOf(o));
    FirstIsNew(m, init, s);
  }

  lemma QuorumKeeps<S>(m: D.Machine<S>, init: S, s: Sys<S>, nextCount: nat, disk: set<int>)
    requires Inv(m, init, s) && Launched(s.lead)
    ensures Inv(m, init, WithLead(s, LaunchNextDraft(m, CommitFirst(m, s.lead, nextCount), disk, true)))
    ensures D.Commit(m, s.lead.ds, s.lead.uncommit[0].zxId, nextCount).Some?
  {
    CommitKeeps(m, init, s, nextCount);
    LaunchNextKeeps(m, init, WithLead(s, CommitFirst(m, s.lead, nextCount)), disk, true);
  }

  lemma AckIs<S>(m: D.Machine<S>, l: Lead<S>, id: int, zxId: int, nextCount: nat, disk: set<int>)
    requires l.uncommit != [] && l.uncommit[0].zxId == zxId && D.Commit(m, l.ds, zxId, nextCount).Some?
    ensures Vote(l, id).uncommit[0].zxId == zxId
    ensures AckPropose(m, l, id, zxId, nextCount, disk) ==
              if HasQuorum(Vote(l, id).uncommit[0].vote)
              then LaunchNextDraft(m, CommitFirst(m, Vote(l, id), nextCount), disk, true)
              else Vote(l, id)
  {
  }

  lemma VoteFrame<S>(l: Lead<S>, id: int)
    requires l.uncommit != []
    ensures var l' := Vote(l, id);
            && l'.uncommit != [] && FirstBill(l') == FirstBill(l) && (Launched(l') <==> Launched(l))
            && l' == l.(uncommit := l'.uncommit) && |l'.uncommit| == |l.uncommit| && l'.uncommit[1..] == l.uncommit[1..]
  {
  }

  lemma AckKeeps<S>(m: D.Machine<S>, init: S, s: Sys<S>, id: int, zxId: int, nextCount: nat, disk: set<int>)
    requires Inv(m, init, s) && id in s.peers
    requires s.lead.uncommit != [] && s.lead.uncommit[0].zxId == zxId ==>
               Launched(s.lead) && Holds(s.peers[id].f, FirstBill(s.lead))
    ensures Inv(m, init, WithLead(s, AckPropose(m, s.lead, id, zxId, nextCount, disk)))
  {
    if s.lead.uncommit != [] && s.lead.uncommit[0].zxId == zxId {
      VoteFrame(s.lead, id);
      VoteKeeps(m, init, s, id);
      QuorumKeeps(m, init, WithLead(s, Vote(s.lead, id)), nextCount, disk);
      AckIs(m, s.lead, id, zxId, nextCount, disk);
    }
  }

  lemma RequestIsFrom<S>(m: D.Machine<S>, init: S, s: Sys<S>, id: int, requestId: int, data: string)
    requires Inv(m, init, s) && Connected(s, id) && s.peers[id].up != []
             && s.peers[id].up[0] == RequestMsg(requestId, data)
    ensures FromRequest(Taken(s, id),
                        Origin(ZxId(s.lead.epoch, s.lead.nextId), id, s.peers[id].session, requestId, data))
  {
    assert PeerOk(m, init, s.lead, s.drafted, id, s.peers[id], LinkTo(s, id));
    assert s.peers[id].up[0] in s.peers[id].up;
  }

  lemma HandleKeeps<S>(m: D.Machine<S>, init: S, s: Sys<S>, id: int, nextCount: nat, disk: set<int>)
    requires Inv(m, init, s) && Connected(s, id) && s.peers[id].up != []
    ensures Inv(m, init, Handle(m, Taken(s, id), id, s.peers[id].up[0], nextCount, disk))
    ensures Connected(Handle(m, Taken(s, id), id, s.peers[id].up[0], nextCount, disk), id)
  {
    var s1, msg := Taken(s, id), s.peers[id].up[0];
    TakeKeeps(m, init, s, id);
    if msg.RequestMsg? {
      var o := Origin(ZxId(s.lead.epoch, s.lead.nextId), id, s.peers[id].session, msg.requestId, msg.data);
      RequestIsFrom(m, init, s, id, msg.requestId, msg.data);
      ProposeKeeps(m, init, s1, o, disk);
    } else {
      if s.lead.uncommit != [] && s.lead.uncommit[0].zxId == msg.zxId {
        AckMeansLaunched(m, init, s, id);
      }
      AckKeeps(m, init, s1, id, msg.zxId, nextCount, disk);
    }
  }

  lemma LeadReadsIs<S>(m: D.Machine<S>, s: Sys<S>, id: int, nextCount: nat, disk: set<int>, s1: Sys<S>)
    requires Connected(s, id) && s.peers[id].up != []
    requires s1 == Handle(m, Taken(s, id), id, s.peers[id].up[0], nextCount, disk)
    ensures Do(m, s, LeadReads(id, nextCount, disk)) == CutIfThrown(s, s1, id)
  {
  }

  lemma LeadReadsKeeps<S>(m: D.Machine<S>, init: S, s: Sys<S>, id: int, nextCount: nat, disk: set<int>)
    requires Inv(m, init, s) && Connected(s, id) && s.peers[id].up != []
    ensures Inv(m, init, Do(m, s, LeadReads(id, nextCount, disk)))
  {
    var s1 := Handle(m, Taken(s, id), id, s.peers[id].up[0], nextCount, disk);
    HandleKeeps(m, init, s, id, nextCount, disk);
    LeadReadsIs(m, s, id, nextCount, disk, s1);
    CutKeeps(m, init, s1, id);
  }

  // ---- A follower reads ----

  /** What one message, whichever it is, does to a follower. */
  ghost predicate Receives<S>(f: Follow<S>, f': Follow<S>) {
    && (forall b :: Holds(f, b) ==> Holds(f', b))
    && f'.nextRequestId == f.nextRequestId
    && (forall r :: r in f'.callbacks ==> r in f.callbacks && f'.callbacks[r] == f.callbacks[r])
    && (f.synced ==> f'.synced) && (f.astray ==> f'.astray)
  }

  lemma CommittedStillHolds<S>(f: Follow<S>, f': Follow<S>, b: D.Bill)
    requires f.ds.uncommit != [] && f'.log == f.log + [f.ds.uncommit[0]] && f'.ds.uncommit == f.ds.uncommit[1..]
    requires Holds(f, b)
    ensures Holds(f', b)
  {
    assert b in f.ds.uncommit ==> b == f.ds.uncommit[0] || b in f.ds.uncommit[1..];
  }

  lemma ReceiveFrame<S>(m: D.Machine<S>, f: Follow<S>, msg: Down, nextCount: nat)
    ensures Receives(f, FollowReceive(m, f, msg, nextCount).0)
  {
    if msg.CommitMsg? && D.Commit(m, f.ds, msg.zxId, nextCount).Some? {
      var f' := FollowReceive(m, f, msg, nextCount).0;
      forall b | Holds(f, b)
        ensures Holds(f', b)
      {
        CommittedStillHolds(f, f', b);
      }
    }
  }

  /** What one message does to a follower that has it first in its queue: unless it is an answer in
      whose body the follower loses its place, all stays well. */
  ghost predicate ReadsWell<S>(m: D.Machine<S>, init: S, drafted: seq<Origin>, id: int, session: nat, f: Follow<S>,
                               queue: seq<Down>, log': seq<D.Bill>, uncommit': seq<D.Bill>, nextCount: nat)
    requires queue != []
  {
    var (f', ups) := FollowReceive(m, f, queue[0], nextCount);
    && (!f'.astray ==> FollowOk(m, init, drafted, id, session, f', queue[1..], log', uncommit'))
    && RequestsOk(drafted, id, session, f') && CallsOk(f'.callbacks, f'.nextRequestId, f'.calls)
    && (f'.astray ==> !f.synced && ups == [])
    && forall up :: up in ups ==>
         queue[0].ProposeMsg? && f.synced && up == AckProposeMsg(queue[0].zxId) && AckBacked(drafted, f', queue[0].zxId)
  }

  lemma ReadsProposal<S>(m: D.Machine<S>, init: S, drafted: seq<Origin>, id: int, session: nat, f: Follow<S>,
                         queue: seq<Down>, log': seq<D.Bill>, uncommit': seq<D.Bill>, nextCount: nat)
    requires FollowOk(m, init, drafted, id, session, f, queue, log', uncommit') && queue != [] && queue[0].ProposeMsg?
    ensures ReadsWell(m, init, drafted, id, session, f, queue, log', uncommit', nextCount)
  {
    var (f', ups) := FollowReceive(m, f, queue[0], nextCount);
    var b := D.Bill(queue[0].zxId, queue[0].data);
    assert IsDrafted(drafted, b);
    var o :| o in drafted && BillOf(o) == b;
    assert b in f'.ds.uncommit && AckBacked(drafted, f', b.zxId);
  }

  lemma CommittedFollowOk<S>(m: D.Machine<S>, init: S, ds: D.DataSet<S>, log: seq<D.Bill>, whole: seq<D.Bill>,
                             nextCount: nat)
    requires LogOk(m, init, ds, log) && ds.uncommit != [] && log + [ds.uncommit[0]] <= whole && D.Ascending(0, whole)
    ensures LogOk(m, init, D.CommitFirst(m, ds, nextCount), log + [ds.uncommit[0]])
  {
    var log' := log + [ds.uncommit[0]];
    assert forall i :: 0 <= i < |log'| ==> log'[i] == whole[i];
    CommittedLogOk(m, init, ds, log, nextCount);
  }

  lemma CommitReceived<S>(m: D.Machine<S>, drafted: seq<Origin>, id: int, f: Follow<S>, queue: seq<Down>,
                          log': seq<D.Bill>, uncommit': seq<D.Bill>, nextCount: nat)
    requires Leads(drafted, id, f.log, f.ds.uncommit, queue, log', uncommit') && queue != [] && queue[0].CommitMsg?
    ensures f.ds.uncommit != [] && f.log + [f.ds.uncommit[0]] <= log'
    ensures var ds, log := D.CommitFirst(m, f.ds, nextCount), f.log + [f.ds.uncommit[0]];
            && FollowReceive(m, f, queue[0], nextCount) == (f.(ds := ds, log := log), [])
            && Leads(drafted, id, log, ds.uncommit, queue[1..], log', uncommit')
  {
    LeadsConserves(drafted, id, f.log + [f.ds.uncommit[0]], f.ds.uncommit[1..], queue[1..], log', uncommit');
  }

  lemma ReadsCommit<S>(m: D.Machine<S>, init: S, drafted: seq<Origin>, id: int, session: nat, f: Follow<S>,
                       queue: seq<Down>, log': seq<D.Bill>, uncommit': seq<D.Bill>, nextCount: nat)
    requires FollowOk(m, init, drafted, id, session, f, queue, log', uncommit') && queue != [] && queue[0].CommitMsg?
    requires D.Ascending(0, log')
    ensures ReadsWell(m, init, drafted, id, session, f, queue, log', uncommit', nextCount)
  {
    CommitReceived(m, drafted, id, f, queue, log', uncommit', nextCount);
    var f' := f.(ds := D.CommitFirst(m, f.ds, nextCount), log := f.log + [f.ds.uncommit[0]]);
    assert LogOk(m, init, f'.ds, f'.log) by {
      CommittedFollowOk(m, init, f.ds, f.log, log', nextCount);
    }
    assert SuccessBacked(drafted, id, session, f.calls, f'.log) by {
      SuccessStaysBacked(drafted, [], id, session, f.calls, f.log, f'.log);
      assert drafted + [] == drafted;
    }
  }

  lemma AnswerIsBacked<S>(drafted: seq<Origin>, id: int, session: nat, f: Follow<S>, r: int, about: int,
                          log: seq<D.Bill>)
    requires Served(drafted, id, r, about, log) && RequestsOk(drafted, id, session, f) && r in f.callbacks
    ensures exists o :: o in drafted && Backs(o, id, session, Call(r, f.callbacks[r], true, about), log)
  {
    var o :| o in drafted && o.zxId == about && o.id == id && o.requestId == r && BillOf(o) in log;
    assert Backs(o, id, session, Call(r, f.callbacks[r], true, about), log);
  }

  lemma ReadsAnswer<S>(m: D.Machine<S>, init: S, drafted: seq<Origin>, id: int, session: nat, f: Follow<S>,
                       queue: seq<Down>, log': seq<D.Bill>, uncommit': seq<D.Bill>, nextCount: nat)
    requires FollowOk(m, init, drafted, id, session, f, queue, log', uncommit') && queue != []
    requires queue[0].RequestAckMsg? || queue[0].UpdatedMsg?
    ensures ReadsWell(m, init, drafted, id, session, f, queue, log', uncommit', nextCount)
  {
    var (f', ups) := FollowReceive(m, f, queue[0], nextCount);
    if queue[0].RequestAckMsg? && f'.calls != f.calls {
      var r, about := queue[0].requestId, queue[0].zxId;
      var call := Call(r, f.callbacks[r], queue[0].success, about);
      assert forall c :: c in f'.calls ==> c in f.calls || c == call;
      if queue[0].success {
        AnswerIsBacked(drafted, id, session, f, r, about, f.log);
      }
    }
  }

  lemma ReadsOk<S>(m: D.Machine<S>, init: S, drafted: seq<Origin>, id: int, session: nat, f: Follow<S>,
                   queue: seq<Down>, log': seq<D.Bill>, uncommit': seq<D.Bill>, nextCount: nat)
    requires FollowOk(m, init, drafted, id, session, f, queue, log', uncommit') && queue != [] && D.Ascending(0, log')
    ensures ReadsWell(m, init, drafted, id, session, f, queue, log', uncommit', nextCount)
  {
    match queue[0]
    case ProposeMsg(_, _) => ReadsProposal(m, init, drafted, id, session, f, queue, log', uncommit', nextCount);
    case CommitMsg(_) => ReadsCommit(m, init, drafted, id, session, f, queue, log', uncommit', nextCount);
    case _ => ReadsAnswer(m, init, drafted, id, session, f, queue, log', uncommit', nextCount);
  }
}
