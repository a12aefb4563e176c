/** What holds in every state that a term can reach, exceptions included. */
module BroadcastResults {
  import opened Common
  import opened BroadcastSpec
  import opened Broadcast
  import opened BroadcastSafety
  import opened BroadcastLead
  import opened BroadcastTerm
  import D = DataSetSpec

  // ---- A follower reads ----

  function AfterReading<S>(m: D.Machine<S>, p: Peer<S>, queue: seq<Down>, nextCount: nat): Peer<S>
    requires queue != []
  {
    var (f, ups) := FollowReceive(m, p.f, queue[0], nextCount);
    if p.joined then p.(f := f, up := p.up + ups) else p.(f := f, rest := queue[1..])
  }

  lemma ReadUpOk<S>(m: D.Machine<S>, init: S, drafted: seq<Origin>, id: int, p: Peer<S>, queue: seq<Down>,
                    log': seq<D.Bill>, uncommit': seq<D.Bill>, nextCount: nat)
    requires UpOk(drafted, p.f, p.up) && queue != []
    requires ReadsWell(m, init, drafted, id, p.session, p.f, queue, log', uncommit', nextCount)
    ensures var p' := AfterReading(m, p, queue, nextCount); UpOk(drafted, p'.f, p'.up)
  {
    var (f, ups) := FollowReceive(m, p.f, queue[0], nextCount);
    var p' := AfterReading(m, p, queue, nextCount);
    ReceiveFrame(m, p.f, queue[0], nextCount);
    assert !f.synced ==> ups == [];
    forall zxId | AckProposeMsg(zxId) in p'.up
      ensures AckBacked(drafted, f, zxId)
    {
      if AckProposeMsg(zxId) in p.up {
        var o :| o in drafted && o.zxId == zxId && Holds(p.f, BillOf(o));
        assert Holds(f, BillOf(o));
      }
    }
  }

  /** Two proposals with one id are the same. */
  lemma OneProposalPerId<S>(s: Sys<S>, msg: Down)
    requires InOrder(s) && AtMostOne(s.lead) && s.lead.ds.uncommit != []
    requires msg.ProposeMsg? && IsDrafted(s.drafted, D.Bill(msg.zxId, msg.data))
             && msg.zxId == s.lead.ds.uncommit[0].zxId
    ensures msg.data == s.lead.ds.uncommit[0].data
  {
    var o :| o in s.drafted && BillOf(o) == D.Bill(msg.zxId, msg.data);
    OneOriginPerId(s, o);
  }

  lemma ReadQuiet<S>(m: D.Machine<S>, init: S, s: Sys<S>, id: int, p: Peer<S>, link: seq<Down>, nextCount: nat)
    requires InOrder(s) && AtMostOne(s.lead) && Quiet(s.lead, p, link) && p.joined && link != []
    requires ReadsWell(m, init, s.drafted, id, p.session, p.f, link, s.lead.log, SentTo(s.lead, id), nextCount)
    requires link[0].ProposeMsg? ==> IsDrafted(s.drafted, D.Bill(link[0].zxId, link[0].data))
    ensures Quiet(s.lead, AfterReading(m, p, link, nextCount), link[1..])
  {
    if s.lead.unsent.Some? && s.lead.ds.uncommit != [] {
      var b := s.lead.ds.uncommit[0];
      var msg := ProposeMsg(b.zxId, b.data);
      if link[0].ProposeMsg? && link[0].zxId == b.zxId {
        OneProposalPerId(s, link[0]);
        assert link[0] == msg;
      }
      assert msg in link[1..] ==> msg in link;
    }
  }

  lemma ReaderOk<S>(m: D.Machine<S>, init: S, s: Sys<S>, id: int, nextCount: nat)
    requires Inv(m, init, s) && id in s.peers && !s.peers[id].f.astray && Queue(s.peers[id], LinkTo(s, id)) != []
    ensures var p, queue := s.peers[id], Queue(s.peers[id], LinkTo(s, id));
            PeerOk(m, init, s.lead, s.drafted, id, AfterReading(m, p, queue, nextCount),
                   if p.joined then Some(queue[1..]) else None)
  {
    var p, l, queue := s.peers[id], s.lead, Queue(s.peers[id], LinkTo(s, id));
    assert PeerOk(m, init, l, s.drafted, id, p, LinkTo(s, id));
    if p.joined {
      ReadsOk(m, init, s.drafted, id, p.session, p.f, queue, l.log, SentTo(l, id), nextCount);
      ReadUpOk(m, init, s.drafted, id, p, queue, l.log, SentTo(l, id), nextCount);
      ReadQuiet(m, init, s, id, p, queue, nextCount);
    } else {
      assert D.Ascending(0, p.cutLog) by {
        assert forall i :: 0 <= i < |p.cutLog| ==> p.cutLog[i] == l.log[i];
      }
      ReadsOk(m, init, s.drafted, id, p.session, p.f, queue, p.cutLog, p.cutUncommit, nextCount);
      ReadUpOk(m, init, s.drafted, id, p, queue, p.cutLog, p.cutUncommit, nextCount);
    }
  }

  lemma FollowReadsIs<S>(m: D.Machine<S>, s: Sys<S>, id: int, nextCount: nat)
    requires Shape(s) && id in s.peers && !s.peers[id].f.astray && Queue(s.peers[id], LinkTo(s, id)) != []
    requires LinkTo(s, id).Some? <==> s.peers[id].joined
    ensures var p, queue := s.peers[id], Queue(s.peers[id], LinkTo(s, id));
            Do(m, s, FollowReads(id, nextCount)) ==
              WithPeer(s, id, AfterReading(m, p, queue, nextCount), if p.joined then Some(queue[1..]) else None)
  {
    if !s.peers[id].joined {
      assert SetLink(s.lead, id, None) == s.lead;
    }
  }

  lemma FollowReadsKeeps<S>(m: D.Machine<S>, init: S, s: Sys<S>, id: int, nextCount: nat)
    requires Inv(m, init, s) && id in s.peers && !s.peers[id].f.astray && Queue(s.peers[id], LinkTo(s, id)) != []
    ensures Inv(m, init, Do(m, s, FollowReads(id, nextCount)))
  {
    var p, queue := s.peers[id], Queue(s.peers[id], LinkTo(s, id));
    var p', link' := AfterReading(m, p, queue, nextCount), if p.joined then Some(queue[1..]) else None;
    assert PeerOk(m, init, s.lead, s.drafted, id, p, LinkTo(s, id));
    FollowReadsIs(m, s, id, nextCount);
    assert Inv(m, init, WithPeer(s, id, p', link')) by {
      ReaderOk(m, init, s, id, nextCount);
      ReceiveFrame(m, p.f, queue[0], nextCount);
      assert s.lead.unsent.Some? && id in s.lead.unsent.value ==> HasLink(s.lead.links, id);
      PeerChangeKeeps(m, init, s, id, p', link');
    }
  }

  // ---- A follower that has lost its place in the stream reads ----

  function AfterStraying<S>(m: D.Machine<S>, p: Peer<S>, msg: Down, nextCount: nat): Peer<S> {
    var (f, ups) := FollowReceive(m, p.f, msg, nextCount);
    p.(f := f, up := if p.joined then p.up + ups else p.up)
  }

  lemma StrayOk<S>(m: D.Machine<S>, init: S, l: Lead<S>, drafted: seq<Origin>, id: int, p: Peer<S>,
                   link: Option<seq<Down>>, msg: Down, nextCount: nat)
    requires PeerOk(m, init, l, drafted, id, p, link) && p.f.astray && (p.f.synced ==> !msg.ProposeMsg?)
    ensures PeerOk(m, init, l, drafted, id, AfterStraying(m, p, msg, nextCount), link)
  {
    ReceiveFrame(m, p.f, msg, nextCount);
  }

  lemma ReadsAstrayIs<S>(m: D.Machine<S>, s: Sys<S>, id: int, msg: Down, nextCount: nat)
    requires id in s.peers && s.peers[id].f.astray
    ensures Do(m, s, ReadsAstray(id, msg, nextCount)) ==
              WithPeer(s, id, AfterStraying(m, s.peers[id], msg, nextCount), LinkTo(s, id))
  {
    assert SetLink(s.lead, id, LinkTo(s, id)) == s.lead;
  }

  lemma ReadsAstrayKeeps<S>(m: D.Machine<S>, init: S, s: Sys<S>, id: int, msg: Down, nextCount: nat)
    requires Inv(m, init, s) && id in s.peers && s.peers[id].f.astray && (s.peers[id].f.synced ==> !msg.ProposeMsg?)
    ensures Inv(m, init, Do(m, s, ReadsAstray(id, msg, nextCount)))
  {
    var p, p' := s.peers[id], AfterStraying(m, s.peers[id], msg, nextCount);
    ReadsAstrayIs(m, s, id, msg, nextCount);
    assert Inv(m, init, WithPeer(s, id, p', LinkTo(s, id))) by {
      assert PeerOk(m, init, s.lead, s.drafted, id, p, LinkTo(s, id));
      StrayOk(m, init, s.lead, s.drafted, id, p, LinkTo(s, id), msg, nextCount);
      ReceiveFrame(m, p.f, msg, nextCount);
      PeerChangeKeeps(m, init, s, id, p', LinkTo(s, id));
    }
  }

  // ---- Whole terms ----

  lemma StepKeepsInv<S>(m: D.Machine<S>, init: S, s: Sys<S>, step: Step)
    requires Inv(m, init, s) && Allowed(s, step)
    ensures Inv(m, init, Do(m, s, step))
  {
    match step
    case Join(id) => JoinKeeps(m, init, s, id);
    case Update(id) =>
      if Connected(s, id) {
        UpdateKeeps(m, init, s, id);
      }
    case Leave(id) =>
      if Connected(s, id) {
        CutKeeps(m, init, s, id);
      }
    case LeadSubmit(data, disk) => LeadSubmitKeeps(m, init, s, data, disk);
    case FollowSubmits(id, data) =>
      if id in s.peers && s.peers[id].f.synced {
        FollowSubmitKeeps(m, init, s, id, data);
      }
    case LeadReads(id, nextCount, disk) =>
      if Connected(s, id) && s.peers[id].up != [] {
        LeadReadsKeeps(m, init, s, id, nextCount, disk);
      }
    case FollowReads(id, nextCount) =>
      if id in s.peers && !s.peers[id].f.astray && Queue(s.peers[id], LinkTo(s, id)) != [] {
        FollowReadsKeeps(m, init, s, id, nextCount);
      }
    case ReadsAstray(id, msg, nextCount) =>
      if id in s.peers && s.peers[id].f.astray {
        ReadsAstrayKeeps(m, init, s, id, msg, nextCount);
      }
  }

  lemma StartIsOk<S>(m: D.Machine<S>, init: S, s: Sys<S>)
    requires Starts(m, init, s)
    ensures Inv(m, init, s)
  {
    forall i | i in s.peers
      ensures PeerOk(m, init, s.lead, s.drafted, i, s.peers[i], LinkTo(s, i))
    {
    }
  }

  lemma {:induction false} RunKeepsInv<S>(m: D.Machine<S>, init: S, s: Sys<S>, steps: seq<Step>)
    requires Inv(m, init, s) && AllowedRun(m, s, steps)
    ensures Inv(m, init, Run(m, s, steps))
    decreases |steps|
  {
    if steps != [] {
      StepKeepsInv(m, init, s, steps[0]);
      RunKeepsInv(m, init, Do(m, s, steps[0]), steps[1..]);
    }
  }

  lemma {:induction false} RunThen<S>(m: D.Machine<S>, s: Sys<S>, steps: seq<Step>, step: Step)
    requires AllowedRun(m, s, steps) && Allowed(Run(m, s, steps), step)
    ensures Run(m, s, steps + [step]) == Do(m, Run(m, s, steps), step) && AllowedRun(m, s, steps + [step])
    decreases |steps|
  {
    if steps == [] {
      assert Run(m, s, [step]) == Run(m, Do(m, s, step), []);
    } else {
      assert (steps + [step])[1..] == steps[1..] + [step];
      RunThen(m, Do(m, s, steps[0]), steps[1..], step);
    }
  }

  /** `s` can be reached from the start `s0` of a term. */
  ghost predicate Reachable<S(!new)>(m: D.Machine<S>, init: S, s0: Sys<S>, s: Sys<S>) {
    Starts(m, init, s0) && exists steps :: AllowedRun(m, s0, steps) && Run(m, s0, steps) == s
  }

  lemma ReachableIsOk<S(!new)>(m: D.Machine<S>, init: S, s0: Sys<S>, s: Sys<S>)
    requires Reachable(m, init, s0, s)
    ensures Inv(m, init, s)
  {
    StartIsOk(m, init, s0);
    var steps :| AllowedRun(m, s0, steps) && Run(m, s0, steps) == s;
    RunKeepsInv(m, init, s0, steps);
  }

  // ---- Main results: followers and leader ----

  lemma LogIsPrefix<S>(m: D.Machine<S>, init: S, s: Sys<S>, i: int)
    requires Inv(m, init, s) && i in s.peers && !s.peers[i].f.astray && (s.peers[i].joined || 0 < s.peers[i].session)
    ensures s.peers[i].f.log <= s.lead.log && s.peers[i].f.ds.state == D.Fold(m, init, s.peers[i].f.log)
    ensures SuccessBacked(s.drafted, i, s.peers[i].session, s.peers[i].f.calls, s.peers[i].f.log)
  {
    var p := s.peers[i];
    assert PeerOk(m, init, s.lead, s.drafted, i, p, LinkTo(s, i));
    if p.joined {
      LeadsConserves(s.drafted, i, p.f.log, p.f.ds.uncommit, LinkTo(s, i).value, s.lead.log, SentTo(s.lead, i));
    } else {
      LeadsConserves(s.drafted, i, p.f.log, p.f.ds.uncommit, p.rest, p.cutLog, p.cutUncommit);
    }
  }

  /** The committed log of every server that has joined in this term is a prefix of the leader's, and
      its state is the leader's state as of that prefix, unless it has lost its place in the stream;
      until then it does not throw. The leader holds at most one uncommitted bill. */
  lemma FollowersTrailTheLeader<S(!new)>(m: D.Machine<S>, init: S, s0: Sys<S>, s: Sys<S>, i: int)
    requires Reachable(m, init, s0, s) && i in s.peers
    ensures !s.peers[i].f.astray && (s.peers[i].joined || 0 < s.peers[i].session) ==>
              && s.peers[i].f.log <= s.lead.log
              && s.peers[i].f.ds.state == D.Fold(m, init, s.lead.log[..|s.peers[i].f.log|])
    ensures s.lead.ds.state == D.Fold(m, init, s.lead.log) && |s.lead.ds.uncommit| <= 1
    ensures !s.peers[i].f.astray ==> !s.peers[i].f.threw
  {
    ReachableIsOk(m, init, s0, s);
    var p := s.peers[i];
    assert PeerOk(m, init, s.lead, s.drafted, i, p, LinkTo(s, i));
    if !p.f.astray && (p.joined || 0 < p.session) {
      LogIsPrefix(m, init, s, i);
      assert s.lead.log[..|p.f.log|] == p.f.log;
    }
  }

  /** Once a connected follower that has kept its place in the stream has read everything sent to it,
      it has the leader's log, state and last id; it also has the leader's uncommitted bill, except
      exactly if a throw kept that from being sent to it. */
  lemma CaughtUpFollowerEqualsTheLeader<S(!new)>(m: D.Machine<S>, init: S, s0: Sys<S>, s: Sys<S>, i: int)
    requires Reachable(m, init, s0, s) && Connected(s, i) && LinkTo(s, i) == Some([]) && !s.peers[i].f.astray
    ensures s.peers[i].f.log == s.lead.log
    ensures s.peers[i].f.ds.state == s.lead.ds.state && s.peers[i].f.ds.zxId == s.lead.ds.zxId
    ensures s.peers[i].f.ds.uncommit == s.lead.ds.uncommit <==> !(s.lead.unsent.Some? && i in s.lead.unsent.value)
  {
    ReachableIsOk(m, init, s0, s);
    assert PeerOk(m, init, s.lead, s.drafted, i, s.peers[i], LinkTo(s, i));
  }

  /** An answer that reaches a server before it is up to date is for a request of an earlier session. */
  lemma EarlyAnswerIsOld<S>(m: D.Machine<S>, init: S, s: Sys<S>, id: int)
    requires Inv(m, init, s) && id in s.peers && !s.peers[id].f.astray && !s.peers[id].f.synced
    requires Queue(s.peers[id], LinkTo(s, id)) != [] && Queue(s.peers[id], LinkTo(s, id))[0].RequestAckMsg?
    ensures var msg := Queue(s.peers[id], LinkTo(s, id))[0];
            exists o :: o in s.drafted && o.zxId == msg.zxId && o.id == id && o.requestId == msg.requestId
                        && o.session < s.peers[id].session
  {
    var p, msg := s.peers[id], Queue(s.peers[id], LinkTo(s, id))[0];
    assert PeerOk(m, init, s.lead, s.drafted, id, p, LinkTo(s, id));
    assert Asked(s.drafted, id, msg.requestId, msg.zxId);
    var o :| o in s.drafted && o.zxId == msg.zxId && o.id == id && o.requestId == msg.requestId;
  }

  predicate LosesItsPlace<S>(s: Sys<S>, id: int) {
    && id in s.peers && !s.peers[id].f.astray && !s.peers[id].f.synced && Queue(s.peers[id], LinkTo(s, id)) != []
    && var msg := Queue(s.peers[id], LinkTo(s, id))[0];
       msg.RequestAckMsg? && Skim(msg.requestId) == TakenForMessage
  }

  lemma ReadingStrays<S>(m: D.Machine<S>, s: Sys<S>, step: Step, id: int)
    requires id in s.peers && !s.peers[id].f.astray && step.FollowReads?
    ensures id in Do(m, s, step).peers
    ensures Do(m, s, step).peers[id].f.astray <==> step.id == id && LosesItsPlace(s, id)
  {
  }

  lemma OnlyReadingStrays<S>(m: D.Machine<S>, s: Sys<S>, step: Step, id: int)
    requires id in s.peers && !s.peers[id].f.astray && !step.FollowReads?
    ensures id in Do(m, s, step).peers && !Do(m, s, step).peers[id].f.astray
  {
  }

  /** A step makes a server lose its place in the stream exactly if the server reads an answer before
      it is up to date and a byte of the request number reads as the type of a longer message; the
      answer is then for a request of an earlier session. */
  lemma LosesItsPlaceIff<S(!new)>(m: D.Machine<S>, init: S, s0: Sys<S>, s: Sys<S>, step: Step, id: int)
    requires Reachable(m, init, s0, s) && id in s.peers && !s.peers[id].f.astray
    ensures id in Do(m, s, step).peers
    ensures Do(m, s, step).peers[id].f.astray <==> step.FollowReads? && step.id == id && LosesItsPlace(s, id)
    ensures LosesItsPlace(s, id) ==>
              exists o :: o in s.drafted && o.zxId == Queue(s.peers[id], LinkTo(s, id))[0].zxId && o.id == id
                          && o.session < s.peers[id].session
  {
    if step.FollowReads? {
      ReadingStrays(m, s, step, id);
    } else {
      OnlyReadingStrays(m, s, step, id);
    }
    if LosesItsPlace(s, id) {
      ReachableIsOk(m, init, s0, s);
      EarlyAnswerIsOld(m, init, s, id);
    }
  }

  /** Which of the small request numbers do that. */
  lemma SmallNumbers(n: int)
    requires 0 <= n < 256
    ensures Skim(n) == if n == PX_PROPOSE || n == PX_COMMIT then TakenForMessage
                       else if n == PX_UPDATED then TakenForUpdated else Skipped
  {
    ZeroBytes(7, false);
    ZeroBytes(7, true);
  }

  lemma {:induction false} ZeroBytes(k: nat, updated: bool)
    ensures SkimBytes(0, k, updated) == if updated then TakenForUpdated else Skipped
  {
    if k > 0 {
      ZeroBytes(k - 1, updated);
    }
  }

  // ---- Main results: exceptions ----

  /** The step is an acknowledgement that completes the first draft's quorum. */
  predicate Completes<S>(s: Sys<S>, step: Step) {
    && step.LeadReads? && Connected(s, step.id) && s.peers[step.id].up != []
    && s.lead.uncommit != [] && s.lead.ds.uncommit != []
    && s.peers[step.id].up[0] == AckProposeMsg(s.lead.uncommit[0].zxId)
    && HasQuorum(Vote(s.lead, step.id).uncommit[0].vote)
  }

  function AfterCommit<S>(m: D.Machine<S>, s: Sys<S>, step: Step): Lead<S>
    requires Completes(s, step)
  {
    CommitFirst(m, Vote(s.lead, step.id), step.nextCount)
  }

  lemma CommitFrame<S>(m: D.Machine<S>, l: Lead<S>, nextCount: nat)
    requires l.uncommit != [] && l.ds.uncommit != []
    ensures var l' := CommitFirst(m, l, nextCount);
            && l'.uncommit == l.uncommit[1..] && l'.throws == l.throws && l'.unsent == l.unsent
            && l'.log == l.log + [l.ds.uncommit[0]] && |l'.links| == |l.links|
  {
  }

  /** The quorum's last acknowledgement comes for a draft that has been sent. */
  lemma CompletedIs<S>(m: D.Machine<S>, init: S, s: Sys<S>, step: Step)
    requires Inv(m, init, s) && Completes(s, step)
    ensures Launched(s.lead) && s.lead.ds.uncommit == [FirstBill(s.lead)]
  {
    assert s.peers[step.id].up[0] in s.peers[step.id].up;
    AckMeansLaunched(m, init, s, step.id);
  }

  lemma AfterCommitIs<S>(m: D.Machine<S>, s: Sys<S>, step: Step)
    requires Completes(s, step) && Launched(s.lead) && s.lead.ds.uncommit == [FirstBill(s.lead)]
    ensures var l := AfterCommit(m, s, step);
            && l.ds.uncommit == [] && l.unsent.None? && l.throws == s.lead.throws
            && l.uncommit == s.lead.uncommit[1..]
            && l.log == s.lead.log + [s.lead.ds.uncommit[0]] && |l.links| == |s.lead.links|
  {
    VoteFrame(s.lead, step.id);
    CommitFrame(m, Vote(s.lead, step.id), step.nextCount);
    assert [FirstBill(s.lead)][1..] == [];
  }

  lemma CompletingDoes<S>(m: D.Machine<S>, s: Sys<S>, step: Step)
    requires Completes(s, step) && s.lead.ds.uncommit == [FirstBill(s.lead)]
    ensures var l := LaunchNextDraft(m, AfterCommit(m, s, step), step.disk, true);
            Do(m, s, step).lead == if l.throws == s.lead.throws then l else Forget(l, step.id)
  {
    AckIs(m, s.lead, step.id, s.lead.uncommit[0].zxId, step.nextCount, step.disk);
    LeadReadsIs(m, s, step.id, step.nextCount, step.disk,
                Handle(m, Taken(s, step.id), step.id, s.peers[step.id].up[0], step.nextCount, step.disk));
  }

  lemma CompletingIs<S>(m: D.Machine<S>, init: S, s: Sys<S>, step: Step)
    requires Inv(m, init, s) && Completes(s, step)
    ensures var l1, l2 := AfterCommit(m, s, step), LaunchNextDraft(m, AfterCommit(m, s, step), step.disk, true);
            && l1.ds.uncommit == [] && l1.unsent.None? && l1.throws == s.lead.throws
            && l1.uncommit == s.lead.uncommit[1..]
            && l1.log == s.lead.log + [s.lead.ds.uncommit[0]] && |l1.links| == |s.lead.links|
            && Do(m, s, step).lead == if l2.throws == s.lead.throws then l2 else Forget(l2, step.id)
  {
    CompletedIs(m, init, s, step);
    AfterCommitIs(m, s, step);
    CompletingDoes(m, s, step);
  }

  /** The leader has only been given requests and votes: no exception, no commit, and the term is
      stalled only if it was. */
  ghost predicate GoesOn<S>(l: Lead<S>, l': Lead<S>) {
    l'.throws == l.throws && l'.log == l.log && (Stalled(l') <==> Stalled(l))
  }

  lemma ProposeGoesOn<S>(m: D.Machine<S>, l: Lead<S>, id: int, requestId: int, data: string, disk: set<int>)
    requires AtMostOne(l) && UnsentOk(l)
    ensures GoesOn(l, Propose(m, l, id, requestId, data, disk))
  {
    var l' := Enqueue(l, id, requestId, data);
    if l.uncommit == [] {
      LaunchThrowsIff(m, l', disk);
      LaunchLeaves(m, l', disk);
    }
  }

  lemma AckGoesOn<S>(m: D.Machine<S>, init: S, s: Sys<S>, id: int, nextCount: nat, disk: set<int>)
    requires Inv(m, init, s) && Connected(s, id) && s.peers[id].up != [] && s.peers[id].up[0].AckProposeMsg?
    requires !Completes(s, LeadReads(id, nextCount, disk))
    ensures GoesOn(s.lead, AckPropose(m, s.lead, id, s.peers[id].up[0].zxId, nextCount, disk))
  {
    var zxId := s.peers[id].up[0].zxId;
    if s.lead.uncommit != [] && s.lead.uncommit[0].zxId == zxId {
      assert s.peers[id].up[0] in s.peers[id].up;
      AckMeansLaunched(m, init, s, id);
      VoteFrame(s.lead, id);
    }
  }

  lemma ReadGoesOn<S>(m: D.Machine<S>, init: S, s: Sys<S>, id: int, nextCount: nat, disk: set<int>)
    requires Inv(m, init, s) && Connected(s, id) && s.peers[id].up != []
    requires !Completes(s, LeadReads(id, nextCount, disk))
    ensures GoesOn(s.lead, Do(m, s, LeadReads(id, nextCount, disk)).lead)
  {
    var s1 := Handle(m, Taken(s, id), id, s.peers[id].up[0], nextCount, disk);
    LeadReadsIs(m, s, id, nextCount, disk, s1);
    match s.peers[id].up[0]
    case RequestMsg(r, data) => ProposeGoesOn(m, s.lead, id, r, data, disk);
    case AckProposeMsg(_) => AckGoesOn(m, init, s, id, nextCount, disk);
  }

  lemma SubmitGoesOn<S>(m: D.Machine<S>, s: Sys<S>, data: string, disk: set<int>)
    requires AtMostOne(s.lead) && UnsentOk(s.lead)
    ensures GoesOn(s.lead, Do(m, s, LeadSubmit(data, disk)).lead)
  {
    ProposeGoesOn(m, AddCallback(s.lead, data), s.lead.id, s.lead.nextRequestId, data, disk);
  }

  lemma TheRestGoesOn<S>(m: D.Machine<S>, s: Sys<S>, step: Step)
    requires !step.LeadSubmit? && !step.LeadReads?
    ensures GoesOn(s.lead, Do(m, s, step).lead)
  {
  }

  lemma OthersGoOn<S>(m: D.Machine<S>, init: S, s: Sys<S>, step: Step)
    requires Inv(m, init, s) && !Completes(s, step)
    ensures GoesOn(s.lead, Do(m, s, step).lead)
  {
    if step.LeadSubmit? {
      SubmitGoesOn(m, s, step.data, step.disk);
    } else if !step.LeadReads? {
      TheRestGoesOn(m, s, step);
    } else if Connected(s, step.id) && s.peers[step.id].up != [] {
      ReadGoesOn(m, init, s, step.id, step.nextCount, step.disk);
    } else {
      assert Do(m, s, step) == s;
    }
  }

  lemma CompletionThrowsIff<S>(m: D.Machine<S>, init: S, s: Sys<S>, step: Step)
    requires Inv(m, init, s) && Completes(s, step)
    ensures Do(m, s, step).lead.throws == s.lead.throws + 1 <==>
              3 <= |s.lead.uncommit| && Refused(m, AfterCommit(m, s, step), step.disk)
    ensures s.lead.throws <= Do(m, s, step).lead.throws <= s.lead.throws + 1
  {
    CompletingIs(m, init, s, step);
    LaunchThrowsIff(m, AfterCommit(m, s, step), step.disk);
  }

  /** The leader throws exactly when a commit leaves at least two drafts in line and the first of
      them is refused: the lock is then released a second time. */
  lemma LeaderThrowsIff<S(!new)>(m: D.Machine<S>, init: S, s0: Sys<S>, s: Sys<S>, step: Step)
    requires Reachable(m, init, s0, s)
    ensures Do(m, s, step).lead.throws == s.lead.throws + 1 <==>
              Completes(s, step) && 3 <= |s.lead.uncommit| && Refused(m, AfterCommit(m, s, step), step.disk)
    ensures s.lead.throws <= Do(m, s, step).lead.throws <= s.lead.throws + 1
  {
    ReachableIsOk(m, init, s0, s);
    if Completes(s, step) {
      CompletionThrowsIff(m, init, s, step);
    } else {
      OthersGoOn(m, init, s, step);
    }
  }

  /** A term comes to a stop exactly at a throw that leaves a draft in line. */
  lemma TermStallsIff<S(!new)>(m: D.Machine<S>, init: S, s0: Sys<S>, s: Sys<S>, step: Step)
    requires Reachable(m, init, s0, s) && !Stalled(s.lead)
    ensures var l' := Do(m, s, step).lead;
            Stalled(l') <==> l'.throws == s.lead.throws + 1 && l'.uncommit != []
  {
    ReachableIsOk(m, init, s0, s);
    if Completes(s, step) {
      CompletingIs(m, init, s, step);
      LaunchLeaves(m, AfterCommit(m, s, step), step.disk);
      LaunchThrowsIff(m, AfterCommit(m, s, step), step.disk);
    } else {
      OthersGoOn(m, init, s, step);
    }
  }

  lemma {:induction false} StallLasts<S>(m: D.Machine<S>, init: S, s: Sys<S>, steps: seq<Step>)
    requires Inv(m, init, s) && Stalled(s.lead) && AllowedRun(m, s, steps)
    ensures Stalled(Run(m, s, steps).lead) && Run(m, s, steps).lead.log == s.lead.log
    decreases |steps|
  {
    if steps != [] {
      if Completes(s, steps[0]) {
        assert s.peers[steps[0].id].up[0] in s.peers[steps[0].id].up;
        AckMeansLaunched(m, init, s, steps[0].id);
      }
      OthersGoOn(m, init, s, steps[0]);
      StepKeepsInv(m, init, s, steps[0]);
      StallLasts(m, init, Do(m, s, steps[0]), steps[1..]);
    }
  }

  /** And then nothing is committed any more, whatever anybody does. */
  lemma StalledTermCommitsNothing<S(!new)>(m: D.Machine<S>, init: S, s0: Sys<S>, s: Sys<S>, steps: seq<Step>)
    requires Reachable(m, init, s0, s) && Stalled(s.lead) && AllowedRun(m, s, steps)
    ensures Stalled(Run(m, s, steps).lead) && Run(m, s, steps).lead.log == s.lead.log
  {
    ReachableIsOk(m, init, s0, s);
    StallLasts(m, init, s, steps);
  }

  // ---- Main results: commits ----

  /** The servers that have the bill in their log, committed or not. */
  ghost function Holders<S>(s: Sys<S>, b: D.Bill): set<int> {
    set j | 1 <= j <= |s.lead.links| && HeldBy(s, j, b)
  }

  ghost predicate HeldBy<S>(s: Sys<S>, i: int, b: D.Bill) {
    if i == s.lead.id then b in s.lead.log || b in s.lead.ds.uncommit
    else i in s.peers && Holds(s.peers[i].f, b)
  }

  function Voters(vote: seq<bool>): set<int> {
    set j | 1 <= j <= |vote| && Voted(vote, j)
  }

  lemma {:induction false} VotersCounted(vote: seq<bool>)
    ensures |Voters(vote)| == CountTrue(vote)
  {
    if vote == [] {
      assert Voters(vote) == {};
    } else {
      var n := |vote|;
      var rest := vote[..n - 1];
      VotersCounted(rest);
      assert forall j :: 1 <= j < n ==> (Voted(vote, j) <==> Voted(rest, j));
      assert Voters(vote) == Voters(rest) + if vote[n - 1] then {n} else {};
    }
  }

  lemma Larger(a: set<int>, b: set<int>)
    requires a <= b
    ensures |a| <= |b|
  {
    assert b == a + (b - a);
  }

  /** Leaving one out and taking another in. */
  lemma OneForAnother(voters: set<int>, holders: set<int>, requester: int, leader: int)
    requires leader in holders && leader !in voters - {requester} && voters - {requester} <= holders
    ensures |voters| <= |holders|
  {
    Larger(voters - {requester} + {leader}, holders);
  }

  lemma VotersHold<S>(m: D.Machine<S>, init: S, s: Sys<S>, j: int)
    requires Inv(m, init, s) && Launched(s.lead)
    requires var d := s.lead.uncommit[0]; j in Voters(d.vote) && j != d.id
    ensures j in Holders(s, FirstBill(s.lead)) && j != s.lead.id
  {
    var d := s.lead.uncommit[0];
    assert HasVote(d, j) && VoteBacked(s.lead.id, s.peers, d, j);
  }

  /** The requester is counted before it has logged and the leader is never counted for others, so
      the two make up for each other: the voters of the first draft never outnumber its holders. */
  lemma HoldersOutnumberVoters<S>(m: D.Machine<S>, init: S, s: Sys<S>)
    requires Inv(m, init, s) && Launched(s.lead)
    ensures CountTrue(s.lead.uncommit[0].vote) <= |Holders(s, FirstBill(s.lead))|
  {
    var d, b := s.lead.uncommit[0], FirstBill(s.lead);
    VotersCounted(d.vote);
    forall j | j in Voters(d.vote) && j != d.id
      ensures j in Holders(s, b) && j != s.lead.id
    {
      VotersHold(m, init, s, j);
    }
    OneForAnother(Voters(d.vote), Holders(s, b), d.id, s.lead.id);
  }

  lemma VoteKeepsHolders<S>(s: Sys<S>, id: int, b: D.Bill)
    requires s.lead.uncommit != []
    ensures Holders(WithLead(s, Vote(s.lead, id)), b) == Holders(s, b)
  {
  }

  lemma CompletionIsAMajority<S>(m: D.Machine<S>, init: S, s: Sys<S>, step: Step)
    requires Inv(m, init, s) && Completes(s, step)
    ensures |s.lead.links| / 2 + 1 <= |Holders(s, s.lead.ds.uncommit[0])|
  {
    var id := step.id;
    assert s.peers[id].up[0] in s.peers[id].up;
    AckMeansLaunched(m, init, s, id);
    VoteFrame(s.lead, id);
    VoteKeeps(m, init, s, id);
    HoldersOutnumberVoters(m, init, WithLead(s, Vote(s.lead, id)));
    VoteKeepsHolders(s, id, FirstBill(s.lead));
    assert s.lead.uncommit[0] in s.lead.uncommit;
  }

  lemma CompletingLogs<S>(m: D.Machine<S>, init: S, s: Sys<S>, step: Step)
    requires Inv(m, init, s) && Completes(s, step)
    ensures Do(m, s, step).lead.log == s.lead.log + [s.lead.ds.uncommit[0]]
  {
    CompletingIs(m, init, s, step);
    LaunchLeaves(m, AfterCommit(m, s, step), step.disk);
  }

  /** A bill enters the leader's committed log only when a majority of all servers already holds it. */
  lemma CommitsRestOnAMajority<S(!new)>(m: D.Machine<S>, init: S, s0: Sys<S>, s: Sys<S>, step: Step)
    requires Reachable(m, init, s0, s) && Do(m, s, step).lead.log != s.lead.log
    ensures Completes(s, step)
    ensures var b := s.lead.ds.uncommit[0];
            Do(m, s, step).lead.log == s.lead.log + [b] && |s.lead.links| / 2 + 1 <= |Holders(s, b)|
  {
    ReachableIsOk(m, init, s0, s);
    if Completes(s, step) {
      CompletingLogs(m, init, s, step);
      CompletionIsAMajority(m, init, s, step);
    } else {
      OthersGoOn(m, init, s, step);
    }
  }

  /** Drafts are taken out of line in the order in which they were submitted, none skipped. */
  lemma DraftsResolveInOrder<S(!new)>(m: D.Machine<S>, init: S, s0: Sys<S>, s: Sys<S>)
    requires Reachable(m, init, s0, s)
    ensures |s.lead.resolved| <= |s.drafted|
    ensures forall k :: 0 <= k < |s.lead.resolved| ==> s.lead.resolved[k] == s.drafted[k].zxId
    ensures forall j, k :: 0 <= j < k < |s.lead.resolved| ==> s.lead.resolved[j] < s.lead.resolved[k]
  {
    ReachableIsOk(m, init, s0, s);
  }
}
