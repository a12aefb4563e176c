/** What the leader's handlers do keeps every follower led to where the leader is. */
module BroadcastSafety {
  import opened Common
  import opened BroadcastSpec
  import opened Broadcast
  import D = DataSetSpec

  // ---- Links ----

  lemma {:induction false} LeadsThen(drafted: seq<Origin>, id: int, log: seq<D.Bill>, uncommit: seq<D.Bill>,
                                     link: seq<Down>, log1: seq<D.Bill>, uncommit1: seq<D.Bill>,
                                     msg: Down, log2: seq<D.Bill>, uncommit2: seq<D.Bill>)
    requires Leads(drafted, id, log, uncommit, link, log1, uncommit1)
    requires Leads(drafted, id, log1, uncommit1, [msg], log2, uncommit2)
    ensures Leads(drafted, id, log, uncommit, link + [msg], log2, uncommit2)
    decreases |link|
  {
    if link == [] {
      assert link + [msg] == [msg];
    } else {
      assert (link + [msg])[1..] == link[1..] + [msg];
      match link[0]
      case ProposeMsg(zxId, data) =>
        LeadsThen(drafted, id, log, uncommit + [D.Bill(zxId, data)], link[1..], log1, uncommit1, msg, log2, uncommit2);
      case CommitMsg(zxId) =>
        LeadsThen(drafted, id, log + [uncommit[0]], uncommit[1..], link[1..], log1, uncommit1, msg, log2, uncommit2);
      case _ =>
        LeadsThen(drafted, id, log, uncommit, link[1..], log1, uncommit1, msg, log2, uncommit2);
    }
  }

  lemma {:induction false} LeadsStays(drafted: seq<Origin>, more: seq<Origin>, id: int, log: seq<D.Bill>,
                                      uncommit: seq<D.Bill>, link: seq<Down>, log': seq<D.Bill>, uncommit': seq<D.Bill>)
    requires Leads(drafted, id, log, uncommit, link, log', uncommit')
    ensures Leads(drafted + more, id, log, uncommit, link, log', uncommit')
    decreases |link|
  {
    if link != [] {
      assert forall o :: o in drafted ==> o in drafted + more;
      match link[0]
      case ProposeMsg(zxId, data) =>
        assert IsDrafted(drafted, D.Bill(zxId, data));
        LeadsStays(drafted, more, id, log, uncommit + [D.Bill(zxId, data)], link[1..], log', uncommit');
      case CommitMsg(zxId) =>
        LeadsStays(drafted, more, id, log + [uncommit[0]], uncommit[1..], link[1..], log', uncommit');
      case RequestAckMsg(r, success, about) =>
        assert Asked(drafted, id, r, about) && Asked(drafted + more, id, r, about);
        assert success ==> Served(drafted, id, r, about, log) && Served(drafted + more, id, r, about, log);
        LeadsStays(drafted, more, id, log, uncommit, link[1..], log', uncommit');
      case UpdatedMsg =>
        LeadsStays(drafted, more, id, log, uncommit, link[1..], log', uncommit');
    }
  }

  function Proposals(link: seq<Down>): seq<D.Bill> {
    if link == [] then []
    else (if link[0].ProposeMsg? then [D.Bill(link[0].zxId, link[0].data)] else []) + Proposals(link[1..])
  }

  lemma {:induction false} ProposalsHave(link: seq<Down>, msg: Down)
    requires msg in link && msg.ProposeMsg?
    ensures D.Bill(msg.zxId, msg.data) in Proposals(link)
  {
    if msg != link[0] {
      ProposalsHave(link[1..], msg);
    }
  }

  /** Nothing is lost or made up on a link: what the server has and what is under way make up what
      the link leads to. */
  lemma {:induction false} LeadsConserves(drafted: seq<Origin>, id: int, log: seq<D.Bill>, uncommit: seq<D.Bill>,
                                          link: seq<Down>, log': seq<D.Bill>, uncommit': seq<D.Bill>)
    requires Leads(drafted, id, log, uncommit, link, log', uncommit')
    ensures log <= log' && log + uncommit + Proposals(link) == log' + uncommit'
    decreases |link|
  {
    if link == [] {
      assert log + uncommit + [] == log + uncommit;
    } else {
      match link[0]
      case ProposeMsg(zxId, data) =>
        LeadsConserves(drafted, id, log, uncommit + [D.Bill(zxId, data)], link[1..], log', uncommit');
      case CommitMsg(zxId) =>
        LeadsConserves(drafted, id, log + [uncommit[0]], uncommit[1..], link[1..], log', uncommit');
        assert log + [uncommit[0]] + uncommit[1..] == log + uncommit;
      case _ =>
        LeadsConserves(drafted, id, log, uncommit, link[1..], log', uncommit');
    }
  }

  /** Whatever a server holds or is about to hold, the leader has sent. */
  lemma HeldIsSent(drafted: seq<Origin>, id: int, log: seq<D.Bill>, uncommit: seq<D.Bill>, link: seq<Down>,
                   log': seq<D.Bill>, uncommit': seq<D.Bill>, b: D.Bill)
    requires Leads(drafted, id, log, uncommit, link, log', uncommit')
    requires b in log || b in uncommit || ProposeMsg(b.zxId, b.data) in link
    ensures b in log' || b in uncommit'
  {
    LeadsConserves(drafted, id, log, uncommit, link, log', uncommit');
    if ProposeMsg(b.zxId, b.data) in link {
      ProposalsHave(link, ProposeMsg(b.zxId, b.data));
    }
    assert b in log + uncommit + Proposals(link);
  }

  // ---- What a change of the leader means for one follower ----

  lemma PeerReplied<S>(m: D.Machine<S>, init: S, l: Lead<S>, drafted: seq<Origin>, id: int, p: Peer<S>, link: seq<Down>,
                       r: int, success: bool, about: int)
    requires PeerOk(m, init, l, drafted, id, p, Some(link))
    requires Asked(drafted, id, r, about) && (success ==> Served(drafted, id, r, about, l.log))
    ensures PeerOk(m, init, l, drafted, id, p, Some(link + [RequestAckMsg(r, success, about)]))
  {
    if !p.f.astray {
      var msg := RequestAckMsg(r, success, about);
      assert Leads(drafted, id, l.log, SentTo(l, id), [msg], l.log, SentTo(l, id));
      LeadsThen(drafted, id, p.f.log, p.f.ds.uncommit, link, l.log, SentTo(l, id), msg, l.log, SentTo(l, id));
      assert link != [] ==> (link + [msg])[1..] == link[1..] + [msg];
    }
  }

  lemma PeerLaunched<S>(m: D.Machine<S>, init: S, l: Lead<S>, l': Lead<S>, drafted: seq<Origin>, id: int, p: Peer<S>,
                        link: Option<seq<Down>>, b: D.Bill)
    requires PeerOk(m, init, l, drafted, id, p, link) && l.unsent.None? && l.ds.uncommit == [] && IsDrafted(drafted, b)
    requires l'.unsent.None? && l'.ds.uncommit == [b] && l'.log == l.log && l'.epoch == l.epoch
    ensures PeerOk(m, init, l', drafted, id, p, Extend(link, ProposeMsg(b.zxId, b.data)))
  {
    if p.joined && !p.f.astray {
      var msg := ProposeMsg(b.zxId, b.data);
      assert [] + [b] == [b] && [msg][1..] == [];
      assert Leads(drafted, id, l.log, [], [msg], l.log, [b]);
      LeadsThen(drafted, id, p.f.log, p.f.ds.uncommit, link.value, l.log, [], msg, l.log, [b]);
    }
  }

  /** Followers that a logged bill has not been sent to are where they would be without it. */
  lemma PeerMissed<S>(m: D.Machine<S>, init: S, l: Lead<S>, l': Lead<S>, drafted: seq<Origin>, id: int, p: Peer<S>,
                      link: Option<seq<Down>>, b: D.Bill)
    requires PeerOk(m, init, l, drafted, id, p, link) && l.unsent.None? && l.ds.uncommit == []
    requires forall x :: x in l.log ==> x.zxId != b.zxId
    requires l'.unsent.Some? && l'.ds.uncommit == [b] && l'.log == l.log && l'.epoch == l.epoch
    requires p.joined ==> id in l'.unsent.value
    ensures PeerOk(m, init, l', drafted, id, p, link)
  {
    if p.joined && !p.f.astray {
      if AckProposeMsg(b.zxId) in p.up {
        var o :| o in drafted && o.zxId == b.zxId && Holds(p.f, BillOf(o));
        HeldIsSent(drafted, id, p.f.log, p.f.ds.uncommit, link.value, l.log, [], BillOf(o));
      }
      if ProposeMsg(b.zxId, b.data) in link.value {
        HeldIsSent(drafted, id, p.f.log, p.f.ds.uncommit, link.value, l.log, [], b);
      }
    }
  }

  lemma PeerCommitted<S>(m: D.Machine<S>, init: S, l: Lead<S>, l': Lead<S>, drafted: seq<Origin>, id: int, p: Peer<S>,
                         link: Option<seq<Down>>, b: D.Bill)
    requires PeerOk(m, init, l, drafted, id, p, link) && l.unsent.None? && l.ds.uncommit == [b]
    requires l'.unsent.None? && l'.ds.uncommit == [] && l'.log == l.log + [b] && l'.epoch == l.epoch
    requires FirstId(l) <= b.zxId
    ensures PeerOk(m, init, l', drafted, id, p, Extend(link, CommitMsg(b.zxId)))
  {
    if p.joined && !p.f.astray {
      var msg := CommitMsg(b.zxId);
      assert [b][1..] == [] && [msg][1..] == [];
      assert Leads(drafted, id, l.log, [b], [msg], l'.log, []);
      LeadsThen(drafted, id, p.f.log, p.f.ds.uncommit, link.value, l.log, [b], msg, l'.log, []);
    }
  }

  lemma SuccessStaysBacked(drafted: seq<Origin>, more: seq<Origin>, id: int, session: nat, calls: seq<Call>,
                           log: seq<D.Bill>, log': seq<D.Bill>)
    requires SuccessBacked(drafted, id, session, calls, log) && log <= log'
    ensures SuccessBacked(drafted + more, id, session, calls, log')
  {
    forall c | c in calls && c.success
      ensures exists o :: o in drafted + more && Backs(o, id, session, c, log')
    {
      var o :| o in drafted && Backs(o, id, session, c, log);
      assert o in drafted + more && Backs(o, id, session, c, log');
    }
  }

  lemma UpStaysOk<S>(drafted: seq<Origin>, more: seq<Origin>, f: Follow<S>, up: seq<Up>)
    requires UpOk(drafted, f, up)
    ensures UpOk(drafted + more, f, up)
  {
    forall zxId | AckProposeMsg(zxId) in up
      ensures AckBacked(drafted + more, f, zxId)
    {
      var o :| o in drafted && o.zxId == zxId && Holds(f, BillOf(o));
      assert o in drafted + more;
    }
  }

  /** A draft made from a live request of the server that it names. */
  ghost predicate RequestIsLive<S>(o: Origin, id: int, session: nat, f: Follow<S>) {
    o.id == id ==>
      && f.synced && o.session <= session && 1 <= o.requestId
      && (o.session == session ==>
           o.requestId < f.nextRequestId && (o.requestId in f.callbacks ==> f.callbacks[o.requestId] == o.data))
  }

  lemma FollowStaysOk<S>(m: D.Machine<S>, init: S, drafted: seq<Origin>, o: Origin, id: int, session: nat, f: Follow<S>,
                         queue: seq<Down>, log': seq<D.Bill>, uncommit': seq<D.Bill>)
    requires FollowOk(m, init, drafted, id, session, f, queue, log', uncommit') && RequestIsLive(o, id, session, f)
    ensures FollowOk(m, init, drafted + [o], id, session, f, queue, log', uncommit')
  {
    LeadsStays(drafted, [o], id, f.log, f.ds.uncommit, queue, log', uncommit');
    SuccessStaysBacked(drafted, [o], id, session, f.calls, f.log, f.log);
  }

  lemma PeerEnqueued<S>(m: D.Machine<S>, init: S, l: Lead<S>, drafted: seq<Origin>, o: Origin, id: int, p: Peer<S>,
                        link: Option<seq<Down>>)
    requires PeerOk(m, init, l, drafted, id, p, link) && RequestIsLive(o, id, p.session, p.f)
    ensures PeerOk(m, init, l, drafted + [o], id, p, link)
  {
    UpStaysOk(drafted, [o], p.f, p.up);
    if p.f.astray {
    } else if p.joined {
      FollowStaysOk(m, init, drafted, o, id, p.session, p.f, link.value, l.log, SentTo(l, id));
    } else {
      FollowStaysOk(m, init, drafted, o, id, p.session, p.f, p.rest, p.cutLog, p.cutUncommit);
    }
  }

  /** Nothing about a follower depends on the line of drafts, the callbacks or the links of others. */
  lemma PeerStays<S>(m: D.Machine<S>, init: S, l: Lead<S>, l': Lead<S>, drafted: seq<Origin>, id: int, p: Peer<S>,
                     link: Option<seq<Down>>)
    requires PeerOk(m, init, l, drafted, id, p, link)
    requires l'.log == l.log && l'.ds == l.ds && l'.unsent == l.unsent && l'.epoch == l.epoch
    ensures PeerOk(m, init, l', drafted, id, p, link)
  {
  }
}
