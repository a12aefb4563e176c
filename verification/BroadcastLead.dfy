/** The leader's handlers keep the invariant of the term, whether or not they end in an exception. */
module BroadcastLead {
  import opened Common
  import opened BroadcastSpec
  import opened Broadcast
  import opened BroadcastSafety
  import D = DataSetSpec

  function WithLead<S>(s: Sys<S>, l: Lead<S>): Sys<S> {
    s.(lead := l)
  }

  lemma DraftIsDrafted<S>(s: Sys<S>, k: nat) returns (o: Origin)
    requires InOrder(s) && k < |s.lead.uncommit|
    ensures o == s.drafted[|s.lead.resolved| + k] && o in s.drafted && Matches(s.lead.uncommit[k], o)
    ensures IsDrafted(s.drafted, D.Bill(s.lead.uncommit[k].zxId, s.lead.uncommit[k].data))
  {
    o := s.drafted[|s.lead.resolved| + k];
    assert BillOf(o) == D.Bill(s.lead.uncommit[k].zxId, s.lead.uncommit[k].data);
  }

  lemma FirstIsNew<S>(m: D.Machine<S>, init: S, s: Sys<S>)
    requires InOrder(s) && LeadLog(m, init, s.lead) && s.lead.uncommit != []
    ensures IsDrafted(s.drafted, FirstBill(s.lead)) && FirstId(s.lead) <= FirstBill(s.lead).zxId
    ensures forall x :: x in s.lead.log ==> x.zxId < FirstBill(s.lead).zxId
  {
    var o := DraftIsDrafted(s, 0);
    assert s.lead.uncommit[0] in s.lead.uncommit;
  }

  // ---- Taking the first draft out of line ----

  lemma EraseKeepsOrder<S>(s: Sys<S>, l': Lead<S>)
    requires InOrder(s) && s.lead.uncommit != []
    requires l'.uncommit == s.lead.uncommit[1..] && l'.resolved == s.lead.resolved + [s.lead.uncommit[0].zxId]
    requires l'.epoch == s.lead.epoch && l'.nextId == s.lead.nextId
    ensures InOrder(WithLead(s, l'))
  {
  }

  lemma EraseKeepsVotes<S>(s: Sys<S>, l': Lead<S>)
    requires Votes(s) && s.lead.uncommit != [] && l'.uncommit == s.lead.uncommit[1..] && l'.id == s.lead.id
    ensures Votes(WithLead(s, l'))
  {
    assert forall d :: d in l'.uncommit ==> d in s.lead.uncommit;
  }

  lemma EraseKeepsShape<S>(s: Sys<S>, l': Lead<S>)
    requires Shape(s) && l'.id == s.lead.id && |l'.links| == |s.lead.links| && l'.links[l'.id - 1].None?
    requires s.lead.uncommit != [] && l'.uncommit == s.lead.uncommit[1..]
    ensures Shape(WithLead(s, l'))
  {
    assert forall d :: d in l'.uncommit ==> d in s.lead.uncommit;
  }

  lemma EraseKeepsLog<S>(m: D.Machine<S>, init: S, l: Lead<S>, l': Lead<S>)
    requires LeadLog(m, init, l) && l.uncommit != [] && l'.uncommit == l.uncommit[1..]
    requires l'.log == l.log && l'.ds == l.ds && l'.epoch == l.epoch && l'.nextId == l.nextId
    ensures LeadLog(m, init, l')
  {
    assert forall d :: d in l'.uncommit ==> d in l.uncommit;
  }

  lemma EraseKeepsLead<S>(m: D.Machine<S>, init: S, s: Sys<S>)
    requires LeadOk(m, init, s) && s.lead.uncommit != [] && s.lead.ds.uncommit == [] && s.lead.unsent.None?
    ensures LeadOk(m, init, WithLead(s, EraseFirst(s.lead)))
  {
    var l' := EraseFirst(s.lead);
    EraseKeepsOrder(s, l');
    EraseKeepsVotes(s, l');
    EraseKeepsShape(s, l');
    EraseKeepsLog(m, init, s.lead, l');
  }

  /** A change of the leader that leaves links, log and data alone is nothing to the followers. */
  lemma PeersStay<S>(m: D.Machine<S>, init: S, s: Sys<S>, l': Lead<S>)
    requires PeersOk(m, init, s) && l'.log == s.lead.log && l'.ds == s.lead.ds && l'.unsent == s.lead.unsent
    requires l'.epoch == s.lead.epoch && l'.links == s.lead.links
    ensures PeersOk(m, init, WithLead(s, l'))
  {
    forall i | i in s.peers
      ensures PeerOk(m, init, l', s.drafted, i, s.peers[i], LinkTo(WithLead(s, l'), i))
    {
      PeerStays(m, init, s.lead, l', s.drafted, i, s.peers[i], LinkTo(s, i));
    }
  }

  lemma EraseKeeps<S>(m: D.Machine<S>, init: S, s: Sys<S>)
    requires Inv(m, init, s) && s.lead.uncommit != [] && s.lead.ds.uncommit == [] && s.lead.unsent.None?
    ensures Inv(m, init, WithLead(s, EraseFirst(s.lead)))
  {
    EraseKeepsLead(m, init, s);
    PeersStay(m, init, s, EraseFirst(s.lead));
  }

  lemma ThrowKeeps<S>(m: D.Machine<S>, init: S, s: Sys<S>)
    requires Inv(m, init, s)
    ensures Inv(m, init, WithLead(s, Throw(s.lead)))
  {
    PeersStay(m, init, s, Throw(s.lead));
  }

  // ---- Answers ----

  /** The draft was made, and a success is told only for a bill that is applied. */
  ghost predicate Answered<S>(s: Sys<S>, d: Draft, success: bool) {
    && Asked(s.drafted, d.id, d.requestId, d.zxId)
    && (success ==> Served(s.drafted, d.id, d.requestId, d.zxId, s.lead.log))
  }

  lemma ReplyKeepsPeer<S>(m: D.Machine<S>, init: S, s: Sys<S>, d: Draft, success: bool, i: int)
    requires i in s.peers && PeerOk(m, init, s.lead, s.drafted, i, s.peers[i], LinkTo(s, i))
    requires Answered(s, d, success)
    ensures var l' := Reply(s.lead, d, success);
            PeerOk(m, init, l', s.drafted, i, s.peers[i], LinkTo(WithLead(s, l'), i))
  {
    var l' := Reply(s.lead, d, success);
    var link := LinkTo(WithLead(s, l'), i);
    if link != LinkTo(s, i) {
      PeerReplied(m, init, s.lead, s.drafted, i, s.peers[i], LinkTo(s, i).value, d.requestId, success, d.zxId);
    }
    PeerStays(m, init, s.lead, l', s.drafted, i, s.peers[i], link);
  }

  lemma ReplyKeepsPeers<S>(m: D.Machine<S>, init: S, s: Sys<S>, d: Draft, success: bool)
    requires PeersOk(m, init, s) && Answered(s, d, success)
    ensures PeersOk(m, init, WithLead(s, Reply(s.lead, d, success)))
  {
    forall i | i in s.peers
      ensures var l' := Reply(s.lead, d, success);
              PeerOk(m, init, l', s.drafted, i, s.peers[i], LinkTo(WithLead(s, l'), i))
    {
      ReplyKeepsPeer(m, init, s, d, success, i);
    }
  }

  lemma ReplyKeepsLeadCalls<S>(s: Sys<S>, d: Draft, success: bool)
    requires LeadCalls(s)
    requires success ==> Served(s.drafted, d.id, d.requestId, d.zxId, s.lead.log)
    ensures LeadCalls(WithLead(s, Reply(s.lead, d, success)))
  {
    var l, l' := s.lead, Reply(s.lead, d, success);
    if l'.calls != l.calls {
      var call := Call(d.requestId, l.callbacks[d.requestId], success, d.zxId);
      assert forall c :: c in l'.calls ==> c in l.calls || c == call;
      if success {
        var o :| o in s.drafted && o.zxId == d.zxId && o.id == d.id && o.requestId == d.requestId && BillOf(o) in l.log;
        assert Backs(o, l.id, 0, call, l.log);
      }
    }
  }

  lemma ReplyFrame<S>(l: Lead<S>, d: Draft, success: bool)
    ensures var l' := Reply(l, d, success);
            && l' == l.(links := l'.links, calls := l'.calls, callbacks := l'.callbacks)
            && |l'.links| == |l.links| && forall i :: HasLink(l'.links, i) <==> HasLink(l.links, i)
  {
  }

  /** What the leader's line, log and votes have to do with its links is only who has one. */
  lemma LinksAndCallsFrame<S>(m: D.Machine<S>, init: S, s: Sys<S>, l': Lead<S>)
    requires LeadOk(m, init, s) && LeadCalls(WithLead(s, l'))
    requires l' == s.lead.(links := l'.links, calls := l'.calls, callbacks := l'.callbacks)
    requires |l'.links| == |s.lead.links| && forall i :: HasLink(l'.links, i) <==> HasLink(s.lead.links, i)
    ensures LeadOk(m, init, WithLead(s, l'))
  {
    assert !HasLink(s.lead.links, s.lead.id);
    assert Votes(WithLead(s, l'));
  }

  lemma ReplyKeepsLead<S>(m: D.Machine<S>, init: S, s: Sys<S>, d: Draft, success: bool)
    requires LeadOk(m, init, s)
    requires success ==> Served(s.drafted, d.id, d.requestId, d.zxId, s.lead.log)
    ensures LeadOk(m, init, WithLead(s, Reply(s.lead, d, success)))
  {
    ReplyKeepsLeadCalls(s, d, success);
    ReplyFrame(s.lead, d, success);
    LinksAndCallsFrame(m, init, s, Reply(s.lead, d, success));
  }

  lemma ReplyKeeps<S>(m: D.Machine<S>, init: S, s: Sys<S>, d: Draft, success: bool)
    requires Inv(m, init, s) && Answered(s, d, success)
    ensures Inv(m, init, WithLead(s, Reply(s.lead, d, success)))
  {
    ReplyKeepsPeers(m, init, s, d, success);
    ReplyKeepsLead(m, init, s, d, success);
  }

  lemma DropKeeps<S>(m: D.Machine<S>, init: S, s: Sys<S>)
    requires Inv(m, init, s) && s.lead.uncommit != [] && s.lead.ds.uncommit == [] && s.lead.unsent.None?
    ensures Inv(m, init, WithLead(s, DropFirst(s.lead)))
    ensures DropFirst(s.lead).ds == s.lead.ds && DropFirst(s.lead).unsent == s.lead.unsent
  {
    var o := DraftIsDrafted(s, 0);
    EraseKeeps(m, init, s);
    ReplyKeeps(m, init, WithLead(s, EraseFirst(s.lead)), s.lead.uncommit[0], false);
  }

  // ---- Launching ----

  lemma LogKeepsLead<S>(m: D.Machine<S>, init: S, s: Sys<S>, l': Lead<S>)
    requires LeadOk(m, init, s) && s.lead.uncommit != [] && s.lead.ds.uncommit == []
    requires l' == LogFirst(s.lead).(links := l'.links, unsent := l'.unsent, throws := l'.throws)
    requires |l'.links| == |s.lead.links| && l'.links[s.lead.id - 1].None?
    requires l'.unsent.Some? ==> forall i :: i in l'.unsent.value ==> HasLink(l'.links, i)
    ensures LeadOk(m, init, WithLead(s, l'))
  {
    assert [] + [FirstBill(s.lead)] == [FirstBill(s.lead)];
  }

  lemma LaunchKeeps<S>(m: D.Machine<S>, init: S, s: Sys<S>)
    requires Inv(m, init, s) && s.lead.uncommit != [] && s.lead.ds.uncommit == [] && s.lead.unsent.None?
    ensures Inv(m, init, WithLead(s, LaunchFirst(s.lead)))
  {
    var l', b := LaunchFirst(s.lead), FirstBill(s.lead);
    FirstIsNew(m, init, s);
    LogKeepsLead(m, init, s, l');
    assert [] + [b] == [b];
    forall i | i in s.peers
      ensures PeerOk(m, init, l', s.drafted, i, s.peers[i], LinkTo(WithLead(s, l'), i))
    {
      PeerLaunched(m, init, s.lead, l', s.drafted, i, s.peers[i], LinkTo(s, i), b);
    }
  }

  lemma MissKeeps<S>(m: D.Machine<S>, init: S, s: Sys<S>)
    requires Inv(m, init, s) && s.lead.uncommit != [] && s.lead.ds.uncommit == [] && s.lead.unsent.None?
    ensures Inv(m, init, WithLead(s, Throw(LogFirst(s.lead)).(unsent := Some(Linked(s.lead)))))
  {
    var l', b := Throw(LogFirst(s.lead)).(unsent := Some(Linked(s.lead))), FirstBill(s.lead);
    FirstIsNew(m, init, s);
    LogKeepsLead(m, init, s, l');
    assert [] + [b] == [b];
    forall i | i in s.peers
      ensures PeerOk(m, init, l', s.drafted, i, s.peers[i], LinkTo(WithLead(s, l'), i))
    {
      assert s.peers[i].joined ==> HasLink(s.lead.links, i);
      PeerMissed(m, init, s.lead, l', s.drafted, i, s.peers[i], LinkTo(s, i), b);
    }
  }

  lemma LaunchNextKeeps<S>(m: D.Machine<S>, init: S, s: Sys<S>, disk: set<int>, owned: bool)
    requires Inv(m, init, s) && s.lead.ds.uncommit == [] && s.lead.unsent.None?
    ensures Inv(m, init, WithLead(s, LaunchNextDraft(m, s.lead, disk, owned)))
    decreases |s.lead.uncommit|
  {
    if s.lead.uncommit != [] {
      if Refused(m, s.lead, disk) {
        if owned {
          DropKeeps(m, init, s);
          LaunchNextKeeps(m, init, WithLead(s, DropFirst(s.lead)), disk, false);
        } else {
          EraseKeeps(m, init, s);
          ThrowKeeps(m, init, WithLead(s, EraseFirst(s.lead)));
        }
      } else if owned {
        LaunchKeeps(m, init, s);
      } else {
        MissKeeps(m, init, s);
      }
    }
  }

  // ---- Proposing ----

  /** The request a draft is made from is a live one of the server it names. */
  ghost predicate FromRequest<S>(s: Sys<S>, o: Origin) {
    if o.id == s.lead.id then
      && o.session == 0 && o.requestId < s.lead.nextRequestId
      && (o.requestId in s.lead.callbacks ==> s.lead.callbacks[o.requestId] == o.data)
    else
      o.id in s.peers && RequestIsLive(o, o.id, s.peers[o.id].session, s.peers[o.id].f)
  }

  ghost predicate IsNext<S>(s: Sys<S>, o: Origin) {
    o.zxId == ZxId(s.lead.epoch, s.lead.nextId)
  }

  function Enqueued<S>(s: Sys<S>, o: Origin): Sys<S> {
    s.(lead := Enqueue(s.lead, o.id, o.requestId, o.data), drafted := s.drafted + [o])
  }

  lemma EnqueueKeepsOrder<S>(s: Sys<S>, o: Origin)
    requires InOrder(s) && IsNext(s, o)
    ensures InOrder(Enqueued(s, o))
  {
    var s' := Enqueued(s, o);
    var l, l', all, all' := s.lead, s'.lead, s.drafted, s'.drafted;
    forall k | 0 <= k < |l'.uncommit|
      ensures Matches(l'.uncommit[k], all'[|l'.resolved| + k])
    {
      if k < |l.uncommit| {
        assert Matches(l.uncommit[k], all[|l.resolved| + k]);
      }
    }
    forall x | x in all'
      ensures FirstId(l') <= x.zxId < ZxId(l'.epoch, l'.nextId)
    {
      assert x in all || x == o;
    }
    forall j, k | 0 <= j < k < |all'|
      ensures all'[j].zxId < all'[k].zxId
    {
      assert all[j] in all;
    }
  }

  lemma EnqueueKeepsLeadCalls<S>(s: Sys<S>, o: Origin)
    requires LeadCalls(s) && FromRequest(s, o)
    ensures LeadCalls(Enqueued(s, o))
  {
    SuccessStaysBacked(s.drafted, [o], s.lead.id, 0, s.lead.calls, s.lead.log, s.lead.log);
  }

  lemma EnqueueKeepsVotes<S>(s: Sys<S>, o: Origin)
    requires Votes(s)
    ensures Votes(Enqueued(s, o))
  {
  }

  lemma EnqueueKeepsLog<S>(m: D.Machine<S>, init: S, l: Lead<S>, id: int, requestId: int, data: string)
    requires LeadLog(m, init, l) && AtMostOne(l) && UnsentOk(l)
    ensures LeadLog(m, init, Enqueue(l, id, requestId, data))
    ensures AtMostOne(Enqueue(l, id, requestId, data)) && UnsentOk(Enqueue(l, id, requestId, data))
  {
  }

  lemma EnqueueKeepsPeers<S>(m: D.Machine<S>, init: S, s: Sys<S>, o: Origin)
    requires PeersOk(m, init, s) && FromRequest(s, o) && s.lead.id !in s.peers
    ensures PeersOk(m, init, Enqueued(s, o))
  {
    var s' := Enqueued(s, o);
    forall i | i in s.peers
      ensures PeerOk(m, init, s'.lead, s'.drafted, i, s.peers[i], LinkTo(s', i))
    {
      PeerEnqueued(m, init, s.lead, s.drafted, o, i, s.peers[i], LinkTo(s, i));
      PeerStays(m, init, s.lead, s'.lead, s'.drafted, i, s.peers[i], LinkTo(s, i));
    }
  }

  lemma EnqueueKeeps<S>(m: D.Machine<S>, init: S, s: Sys<S>, o: Origin)
    requires Inv(m, init, s) && FromRequest(s, o) && IsNext(s, o)
    ensures Inv(m, init, Enqueued(s, o))
  {
    EnqueueKeepsOrder(s, o);
    EnqueueKeepsLog(m, init, s.lead, o.id, o.requestId, o.data);
    EnqueueKeepsVotes(s, o);
    EnqueueKeepsLeadCalls(s, o);
    EnqueueKeepsPeers(m, init, s, o);
  }

  lemma ProposeKeeps<S>(m: D.Machine<S>, init: S, s: Sys<S>, o: Origin, disk: set<int>)
    requires Inv(m, init, s) && FromRequest(s, o) && IsNext(s, o)
    ensures Inv(m, init, Enqueued(s, o).(lead := Propose(m, s.lead, o.id, o.requestId, o.data, disk)))
  {
    var s' := Enqueued(s, o);
    EnqueueKeeps(m, init, s, o);
    if s.lead.uncommit == [] {
      LaunchNextKeeps(m, init, s', disk, true);
      assert WithLead(s', LaunchNextDraft(m, s'.lead, disk, true)) ==
             s'.(lead := Propose(m, s.lead, o.id, o.requestId, o.data, disk));
    }
  }

  // ---- Voting and committing ----

  lemma VoteKeepsVotes<S>(s: Sys<S>, i: int)
    requires Shape(s) && Votes(s) && s.lead.uncommit != [] && i in s.peers && Holds(s.peers[i].f, FirstBill(s.lead))
    ensures Votes(WithLead(s, Vote(s.lead, i)))
  {
    var l, l' := s.lead, Vote(s.lead, i);
    forall d, j | d in l'.uncommit && HasVote(d, j)
      ensures VoteBacked(l.id, s.peers, d, j)
    {
      var k :| 0 <= k < |l'.uncommit| && l'.uncommit[k] == d;
      if k == 0 {
        assert j != i ==> HasVote(l.uncommit[0], j);
      } else {
        assert d == l.uncommit[k];
      }
    }
  }

  lemma VoteKeepsOrder<S>(s: Sys<S>, i: int)
    requires InOrder(s) && s.lead.uncommit != []
    ensures InOrder(WithLead(s, Vote(s.lead, i)))
  {
    var l, l' := s.lead, Vote(s.lead, i);
    forall k | 0 <= k < |l'.uncommit|
      ensures Matches(l'.uncommit[k], s.drafted[|l'.resolved| + k])
    {
      assert Matches(l.uncommit[k], s.drafted[|l.resolved| + k]);
    }
  }

  lemma VoteKeepsShape<S>(m: D.Machine<S>, init: S, s: Sys<S>, i: int)
    requires Shape(s) && LeadLog(m, init, s.lead) && s.lead.uncommit != []
    ensures Shape(WithLead(s, Vote(s.lead, i))) && LeadLog(m, init, Vote(s.lead, i))
  {
    var l, l' := s.lead, Vote(s.lead, i);
    forall d | d in l'.uncommit
      ensures exists e :: e in l.uncommit && e.zxId == d.zxId && |e.vote| == |d.vote|
    {
      var k :| 0 <= k < |l'.uncommit| && l'.uncommit[k] == d;
      assert l.uncommit[k] in l.uncommit;
    }
  }

  lemma VoteKeeps<S>(m: D.Machine<S>, init: S, s: Sys<S>, i: int)
    requires Inv(m, init, s) && s.lead.uncommit != [] && i in s.peers && Holds(s.peers[i].f, FirstBill(s.lead))
    ensures Inv(m, init, WithLead(s, Vote(s.lead, i)))
  {
    VoteKeepsVotes(s, i);
    VoteKeepsOrder(s, i);
    VoteKeepsShape(m, init, s, i);
    PeersStay(m, init, s, Vote(s.lead, i));
  }

  /** The leader after a commit, before anybody is answered. */
  function Committed<S>(m: D.Machine<S>, l: Lead<S>, nextCount: nat): Lead<S>
    requires l.uncommit != [] && l.ds.uncommit != []
  {
    EraseFirst(l).(ds := D.CommitFirst(m, l.ds, nextCount), log := l.log + [l.ds.uncommit[0]],
                   links := SendAll(l.links, CommitMsg(l.uncommit[0].zxId)))
  }

  /** What matters of such a step. */
  ghost predicate Commits<S>(m: D.Machine<S>, init: S, l: Lead<S>, l': Lead<S>)
    requires l.uncommit != []
  {
    && l' == l.(uncommit := l.uncommit[1..], resolved := l.resolved + [l.uncommit[0].zxId],
                log := l.log + [FirstBill(l)],
               links := SendAll(l.links, CommitMsg(l.uncommit[0].zxId)), ds := l'.ds)
    && l'.ds.uncommit == [] && LogOk(m, init, l'.ds, l'.log)
  }

  lemma EndOfEnd(log: seq<D.Bill>, tail: seq<D.Bill>, b: D.Bill, kept: seq<D.Bill>)
    requires D.IsEnd(tail, log) && D.IsEnd(kept, tail + [b])
    ensures D.IsEnd(kept, log + [b])
  {
    assert tail + [b] == (log + [b])[|log| - |tail|..];
  }

  lemma FoldThen<S>(m: D.Machine<S>, init: S, log: seq<D.Bill>, b: D.Bill)
    ensures D.Fold(m, init, log + [b]) == m.apply(D.Fold(m, init, log), b.data) && D.LastId(0, log + [b]) == b.zxId
  {
    assert (log + [b])[..|log + [b]| - 1] == log;
  }

  lemma CommittedEnd<S>(m: D.Machine<S>, ds: D.DataSet<S>, log: seq<D.Bill>, nextCount: nat)
    requires D.IsEnd(ds.commitLog, log) && ds.uncommit != []
    ensures D.IsEnd(D.CommitFirst(m, ds, nextCount).commitLog, log + [ds.uncommit[0]])
  {
    EndOfEnd(log, ds.commitLog, ds.uncommit[0], D.CommitFirst(m, ds, nextCount).commitLog);
  }

  lemma CommittedLogOk<S>(m: D.Machine<S>, init: S, ds: D.DataSet<S>, log: seq<D.Bill>, nextCount: nat)
    requires LogOk(m, init, ds, log) && ds.uncommit != [] && D.Ascending(0, log + [ds.uncommit[0]])
    ensures LogOk(m, init, D.CommitFirst(m, ds, nextCount), log + [ds.uncommit[0]])
  {
    FoldThen(m, init, log, ds.uncommit[0]);
    CommittedEnd(m, ds, log, nextCount);
  }

  lemma AscendingThen(log: seq<D.Bill>, b: D.Bill)
    requires D.Ascending(0, log) && 0 < b.zxId && forall x :: x in log ==> x.zxId < b.zxId
    ensures D.Ascending(0, log + [b])
  {
  }

  lemma CommitKeepsDraftOrder<S>(s: Sys<S>, d: Draft)
    requires InOrder(s) && s.lead.uncommit != [] && d in s.lead.uncommit[1..]
    ensures d in s.lead.uncommit && FirstBill(s.lead).zxId < d.zxId
  {
    var k :| 1 <= k < |s.lead.uncommit| && s.lead.uncommit[k] == d;
    var first := DraftIsDrafted(s, 0);
    var later := DraftIsDrafted(s, k);
  }

  lemma CommittedFrame<S>(m: D.Machine<S>, l: Lead<S>, nextCount: nat)
    requires l.uncommit != [] && l.ds.uncommit == [FirstBill(l)]
    ensures var l' := Committed(m, l, nextCount);
            && l' == l.(uncommit := l.uncommit[1..], resolved := l.resolved + [l.uncommit[0].zxId],
                        log := l.log + [FirstBill(l)],
                        links := SendAll(l.links, CommitMsg(l.uncommit[0].zxId)), ds := l'.ds)
            && l'.ds.uncommit == [] && l'.ds == D.CommitFirst(m, l.ds, nextCount)
  {
    assert [FirstBill(l)][1..] == [];
  }

  lemma NextLogOk<S>(m: D.Machine<S>, init: S, s: Sys<S>, nextCount: nat)
    requires InOrder(s) && LeadLog(m, init, s.lead) && s.lead.uncommit != []
    requires s.lead.ds.uncommit == [FirstBill(s.lead)]
    ensures LogOk(m, init, D.CommitFirst(m, s.lead.ds, nextCount), s.lead.log + [FirstBill(s.lead)])
  {
    FirstIsNew(m, init, s);
    AscendingThen(s.lead.log, FirstBill(s.lead));
    CommittedLogOk(m, init, s.lead.ds, s.lead.log, nextCount);
  }

  lemma CommittedCommits<S>(m: D.Machine<S>, init: S, s: Sys<S>, nextCount: nat)
    requires InOrder(s) && LeadLog(m, init, s.lead) && AtMostOne(s.lead) && Launched(s.lead)
    ensures Commits(m, init, s.lead, Committed(m, s.lead, nextCount))
  {
    CommittedFrame(m, s.lead, nextCount);
    NextLogOk(m, init, s, nextCount);
  }

  lemma CommitKeepsLog<S>(m: D.Machine<S>, init: S, s: Sys<S>, l': Lead<S>)
    requires InOrder(s) && LeadLog(m, init, s.lead) && s.lead.uncommit != [] && Commits(m, init, s.lead, l')
    ensures LeadLog(m, init, l')
  {
    FirstIsNew(m, init, s);
    forall d | d in l'.uncommit
      ensures d in s.lead.uncommit && FirstBill(s.lead).zxId < d.zxId
    {
      CommitKeepsDraftOrder(s, d);
    }
    var o := DraftIsDrafted(s, 0);
  }

  lemma CommitKeepsLeadCalls<S>(m: D.Machine<S>, init: S, s: Sys<S>, l': Lead<S>)
    requires LeadCalls(s) && s.lead.uncommit != [] && Commits(m, init, s.lead, l')
    ensures LeadCalls(WithLead(s, l'))
  {
    SuccessStaysBacked(s.drafted, [], s.lead.id, 0, s.lead.calls, s.lead.log, l'.log);
    assert s.drafted + [] == s.drafted;
  }

  /** All that the order, the votes and the links have to do with such a step. */
  lemma CommitsErases<S>(m: D.Machine<S>, init: S, l: Lead<S>, l': Lead<S>)
    requires l.uncommit != [] && Commits(m, init, l, l') && 1 <= l.id <= |l.links| && l.links[l.id - 1].None?
    ensures l'.uncommit == l.uncommit[1..] && l'.resolved == l.resolved + [l.uncommit[0].zxId]
    ensures l'.epoch == l.epoch && l'.nextId == l.nextId && l'.id == l.id && l'.unsent == l.unsent
    ensures |l'.links| == |l.links| && l'.links[l'.id - 1].None? && l'.ds.uncommit == []
  {
  }

  lemma CommitKeepsLead<S>(m: D.Machine<S>, init: S, s: Sys<S>, l': Lead<S>)
    requires LeadOk(m, init, s) && Launched(s.lead) && Commits(m, init, s.lead, l')
    ensures LeadOk(m, init, WithLead(s, l'))
  {
    CommitsErases(m, init, s.lead, l');
    CommitKeepsLog(m, init, s, l');
    EraseKeepsOrder(s, l');
    EraseKeepsVotes(s, l');
    CommitKeepsLeadCalls(m, init, s, l');
    EraseKeepsShape(s, l');
  }

  lemma CommitKeepsPeers<S>(m: D.Machine<S>, init: S, s: Sys<S>, l': Lead<S>, b: D.Bill)
    requires PeersOk(m, init, s) && s.lead.unsent.None? && s.lead.ds.uncommit == [b] && FirstId(s.lead) <= b.zxId
    requires l'.unsent.None? && l'.ds.uncommit == [] && l'.log == s.lead.log + [b] && l'.epoch == s.lead.epoch
    requires l'.links == SendAll(s.lead.links, CommitMsg(b.zxId))
    ensures PeersOk(m, init, WithLead(s, l'))
  {
    forall i | i in s.peers
      ensures PeerOk(m, init, l', s.drafted, i, s.peers[i], LinkTo(WithLead(s, l'), i))
    {
      assert LinkTo(WithLead(s, l'), i) == Extend(LinkTo(s, i), CommitMsg(b.zxId));
      PeerCommitted(m, init, s.lead, l', s.drafted, i, s.peers[i], LinkTo(s, i), b);
    }
  }

  lemma CommittedIsServed<S>(m: D.Machine<S>, init: S, s: Sys<S>, l': Lead<S>)
    requires InOrder(s) && s.lead.uncommit != [] && Commits(m, init, s.lead, l')
    ensures Answered(WithLead(s, l'), s.lead.uncommit[0], true)
  {
    var o := DraftIsDrafted(s, 0);
    assert BillOf(o) in l'.log;
  }

  lemma CommitThenReply<S>(m: D.Machine<S>, init: S, s: Sys<S>, l': Lead<S>)
    requires Inv(m, init, s) && Launched(s.lead) && Commits(m, init, s.lead, l')
    ensures Inv(m, init, WithLead(s, Reply(l', s.lead.uncommit[0], true)))
  {
    CommitKeepsLead(m, init, s, l');
    FirstIsNew(m, init, s);
    CommitKeepsPeers(m, init, s, l', FirstBill(s.lead));
    CommittedIsServed(m, init, s, l');
    ReplyKeeps(m, init, WithLead(s, l'), s.lead.uncommit[0], true);
  }

  lemma CommitFirstIs<S>(m: D.Machine<S>, l: Lead<S>, nextCount: nat)
    requires l.uncommit != [] && l.ds.uncommit == [FirstBill(l)]
    ensures var l' := CommitFirst(m, l, nextCount);
            && l' == Reply(Committed(m, l, nextCount), l.uncommit[0], true)
            && l'.ds.uncommit == [] && l'.unsent == l.unsent
    ensures D.Commit(m, l.ds, l.uncommit[0].zxId, nextCount).Some?
  {
    CommittedFrame(m, l, nextCount);
  }

  /** Committing the first draft meets no exception, and it is answered truthfully. */
  lemma CommitKeeps<S>(m: D.Machine<S>, init: S, s: Sys<S>, nextCount: nat)
    requires Inv(m, init, s) && Launched(s.lead)
    ensures Inv(m, init, WithLead(s, CommitFirst(m, s.lead, nextCount)))
    ensures CommitFirst(m, s.lead, nextCount).ds.uncommit == [] && CommitFirst(m, s.lead, nextCount).unsent.None?
    ensures D.Commit(m, s.lead.ds, s.lead.uncommit[0].zxId, nextCount).Some?
  {
    CommitFirstIs(m, s.lead, nextCount);
    CommittedCommits(m, init, s, nextCount);
    CommitThenReply(m, init, s, Committed(m, s.lead, nextCount));
  }
}
